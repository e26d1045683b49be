# Verification of flow-pipe

This directory holds a Dafny model of flow-pipe and proofs about it.  `dafny verify dfyconfig.toml`
checks everything.  flow-pipe runs dataflow pipelines (*flows*): stages joined by bounded queues, executed
by a multi-threaded C++ runtime; flow specs and schemas are kept as versioned keys in etcd behind an API
server; a controller mirrors the active specs as Kubernetes objects.

| files | what they model |
|---|---|
| `Payloads`, `Pipeline` | the runtime as a transition system: one main thread and one thread per worker, any number of stages, queues and threads; a step is one atomic access, one locked section or one call into a stage; a blocked push, pop, join or poll is a step that is not enabled |
| `PipelineSafety`, `PipelineTheorems` | the invariant of every reachable state and the safety results read off it |
| `PipelineCauses` | what the labels of a run tell: why stop was requested, how run ends, what a throw or a failed wiring leaves, the order in which stages start |
| `WorkerAccounts` | what each worker did, from the answers of its stage: payloads in order and all metric counters |
| `PipelineLiveness` | deadlock freedom, and bounds on the length of every run |
| `PipelineRefinement`, `PipelineChains` | job runs without throw or signal: draining, and agreement with running the stages one after the other |
| `EarlyStop`, `DrainExact`, `LostPayload` | exactly when a job's count of workers can touch zero too soon, exactly when a job can return without having drained, and a run that loses a payload |
| `CondQueue` | one bounded queue at the level of its condition variables: sleeping and notified waiters, barging, spurious wakeups |
| `SleepingFlow` | the whole flow with its waits at that level: workers that sleep until they are notified, and deadlock freedom for them |
| `RunnerSteps`, `StageRunner` | the three runner loops as imperative code over shared queue and flag objects, with arbitrary neighbours, each loop proved to be its steps of the transition system |
| `Registry` | the stage registry as a class, with the trace of loads, creations, destructions and unloads |
| `MetaAttributes` | copy-on-write payload attributes on the heap |
| `JsonText`, `YamlToJson`, `YamlRoundTrip` | an RFC 8259 decoder (sections 3 to 7), the imperative YAML-to-JSON printer, and the proof that the decoder inverts it |
| `NameOrder`, `FlowSpecs`, `Wiring` | normalisation in place, validation, and what the runtime's wiring code does with an accepted spec |
| `KeyLayout`, `VersionStore`, `VersionRollback`, `TwoStepReads`, `SchemaListing` | the versioned etcd stores for any number of clients whose requests interleave, reads of two requests included; `Layout` selects flows or schemas |
| `FlowWatch` | the controller's view of the store: active flow, watch filter, convergence, lists taken while others write |
| `Reconciler` | the controller's effect on the cluster when any API call may fail or lose its answer |
| `Options`, `Collections`, `Sums` | helpers |

Results that contradict or sharpen what the documentation says:

* A job is documented to "drain, and exit" (README.md:46).  It can return 0 with a payload still queued
  (`LostPayload.JobCanLosePayload`): workers are counted one by one as they are started, so the count can
  touch zero while workers are still to be started.  A caller can check the exact condition on the spec
  (`DrainExact.DrainsExactly`): over acyclic, fully wired flows some run returns undrained if and only if
  some proper prefix of the spawn order reads only queues written inside it, and either a source comes after
  it, or it writes a queue that none of its own workers reads.  Every other job drains.
* `ConfigurableStage::configure` may throw, and `create_stage` then forgets the instance it has just made
  (`runtime/src/stage_registry.cc:31-44`): the instance is never destroyed, and its plugin is unloaded under it.
  Every instance is destroyed exactly once, in time, if and only if no `configure()` threw
  (`Registry.AllDestroyedInTime`, `PipelineTheorems.AllDestroyedExactly`).
* A normal form of a spec is unique if and only if queues of one name agree once capacities are filled in, and
  stages of one name are equal (`FlowSpecs.NormalFormExactly`, `FlowSpecs.NormalStagesExactly`): the sort is unstable.
* A read of two requests misses if and only if the name was deleted in between and not written up to the version
  again (`TwoStepReads.TwoStepReadExactly`); after a delete and a new create it can return a document that was
  not there when the read began (`TwoStepReads.DeletedAndRecreated`).
* Old versions are documented never to be overwritten (api/README.md:69-70).  After a rollback the next
  update overwrites one (`VersionRollback.OldVersionsCanBeOverwritten`); it does so if and only if active was
  rolled back below the highest stored version (`VersionRollback.OverwritesExactly`).  Without rollbacks
  versions are immutable until deleted.
* Deleting a flow or a schema deletes every name that starts with the given name; another name is touched
  if and only if one such is stored (`VersionStore.DeleteTouchesOthersExactly`).
* An update of a Job flow refreshes its ConfigMap and leaves an existing Job as it was, exactly when the Job
  differs (`Reconciler.WorkloadUpToDate`); a change of workload kind leaves the old workload
  (`Reconciler.SwitchLeavesOld`).
* A request to stop wakes no sleeper of a queue; only the close that follows does
  (`CondQueue.StopAloneStrands`).

## Model

| member | source | states |
|---|---|---|
| Payloads.Stamp | runtime/src/stage_runner.cc:50-70 | output schema: a payload is refused exactly when both ids are set and differ; whatever passes would be accepted by input validation of the same queue, with its data untouched |
| Payloads.AcceptedExactly | runtime/src/stage_runner.cc:28-70 | input validation accepts exactly the payloads that output stamping for the same queue would leave unchanged |
| PipelineSafety.RunInv | runtime/src/runtime.cc:281-553 | every state of every run (any interleaving, signal, throw, wiring fault) satisfies the whole invariant: places, counters, closing, queue contents, conservation, instance lifecycle |
| PipelineTheorems.ClosedMeansProducersDone | runtime/src/runtime.cc:407-411 | a queue closed before any stop has remaining count zero and all its producers have returned from their runners |
| PipelineTheorems.CountersAndPushes | runtime/src/runtime.cc:407-422 | neither atomic counter underflows; no push is refused and no queue is found closed by a producer while stop is unset |
| PipelineTheorems.PayloadsConserved | runtime/src/stage_runner.cc:129-410 | payloads ever produced = waiting in queues + held + consumed + dropped + refused + lost to throws, at every moment |
| PipelineTheorems.QueueHistories | runtime/include/flowpipe/bounded_queue.h:18-48 | popped history is a prefix of pushed history, the rest is what waits, within capacity; both are the union of the workers' own histories |
| PipelineTheorems.MetricsAddUp | runtime/src/stage_runner.cc:179-410 | per transform dequeues = enqueues + errors + refused (at most 1) + in hand; per sink dequeues = latencies + errors + in hand; per source latencies = enqueues + refused + in hand |
| PipelineTheorems.InputAlwaysValid | runtime/src/stage_runner.cc:28-48 | every payload waiting in a queue with a schema id carries exactly that id, so input validation never rejects |
| PipelineTheorems.MismatchedTransformIsBarren | runtime/src/stage_runner.cc:254-305 | a transform that keeps the schema id between queues of two different ids enqueues nothing and counts one error per payload it finished |
| PipelineTheorems.StagesDestroyedOnce | runtime/src/runtime.cc:335-553 | a stage in use is registered and its plugin loaded; a thread that has ended has destroyed its own instance; no instance is destroyed twice; when run is over, on any way out, no instance is registered, each that ever was has been destroyed exactly once, and plugins were unloaded once |
| PipelineTheorems.LeakedExactly | runtime/src/stage_registry.cc:31-44 | at every moment of every run some instance is lost if and only if some configure() has thrown |
| PipelineTheorems.AllDestroyedExactly | runtime/src/stage_registry.cc:31-44 | when run is over, on any way out, every instance ever created was destroyed exactly once if and only if no configure() threw |
| PipelineCauses.StreamingStopsExactly | runtime/src/runtime.cc:407-422 | a flow that is no job never stops by itself: stop is set exactly when a signal or a stage asked for it, a stage threw, or the wiring failed and main has seen to it; until then main starts workers or waits |
| PipelineCauses.JobStopsWhy | runtime/src/runtime.cc:407-536 | a job stops only for those reasons or because at some moment no started worker was at work any more; and each of those reasons does stop it |
| PipelineCauses.EndsExactly | runtime/src/runtime.cc:529-553 | run throws exactly when the wiring failed; otherwise every worker had been started; either way every started thread has ended, the others did nothing, and all queues are closed |
| PipelineCauses.ThrowEndsWorker | runtime/src/stage_runner.cc:132-397 | after a stage threw: stop is set for good, its worker takes, makes and sends nothing more, and a transform has closed its input queue before it moves on |
| PipelineCauses.FailureDestroysExactly | runtime/src/runtime.cc:335-379 | when the wiring fails, the instances that got no thread are destroyed at once, exactly unless the threads of their stage were being started |
| PipelineCauses.StartsStageByStage | runtime/src/runtime.cc:298-379 | all instances of a stage are made before any of its threads is counted or started, and none before all threads of the earlier stages run |
| WorkerAccounts.WorkersAccounted | runtime/src/stage_runner.cc:124-413 | in every run, for every worker: what it offered to its queue is, in order, what its stage returned, stamped and less schema errors; a sink consumes in order what it popped; and all four counters are counts of the stage's answers |
| WorkerAccounts.RunnerAccounted | runtime/src/stage_runner.cc:28-413 | the same for one runner among arbitrary neighbours, that may hand it payloads of a wrong schema: each costs one error and never reaches the stage, and every other does |
| PipelineLiveness.StepPays | runtime/src/runtime.cc:281-542 | every step of every thread lowers a measure of items weighted by queue depth plus progress, over acyclic flows with bounded sources |
| PipelineLiveness.JobNeverStuck | runtime/src/runtime.cc:281-542 | with waits as guards: in a job over an acyclic, fully wired flow some thread can move exactly until run has returned |
| PipelineLiveness.JobReturns | runtime/src/runtime.cc:281-542 | every run of such a job is shorter than a number known at its start, and it ends only by returning or throwing |
| PipelineLiveness.ShutdownReturns | runtime/src/runtime.cc:529-547 | in any mode, over any flow, with endless or throwing stages: after stop at most 14 W + Q + 6 more steps, and with waits as guards none of them can be stuck (for sleeping threads see SleepingFlow.StoppedFlowMoves) |
| PipelineChains.JobDrains | runtime/src/runtime.cc:407-422 | a clean job that stops, not early: every worker has left its runner, every source delivered its script, every read queue is empty with pushed = popped |
| PipelineChains.ChainRefinesSequential | runtime/src/stage_runner.cc:207-413 | a chain of single workers: at every moment the sink has consumed a prefix of the sequential result, and all of it after a late stop, under every interleaving |
| PipelineChains.LayerMaps | runtime/src/stage_runner.cc:207-319 | a stage of any number of workers that map payloads by f: after a late stop its output is f over its input, filtered by the schema, as a multiset |
| PipelineChains.LayersRefineSequential | runtime/src/stage_runner.cc:124-413 | layers of any number of workers: what the sinks consumed is, as a multiset, the sequential result |
| EarlyStop.CoveredJobDrains | runtime/src/runtime.cc:392-422 | under a covered spawn order every clean job run that stops has drained |
| EarlyStop.EarlyStopExactly | runtime/src/runtime.cc:392-422 | in some clean run of an acyclic, fully wired job the count of active workers touches zero while workers are still to be started, if and only if its spawn order is not covered; what that costs is decided by DrainExact |
| DrainExact.UnleakyDrains | runtime/src/runtime.cc:392-422 | in a job that does not leak at any place of its spawn order, every clean run that stops, early or not, has delivered every script and emptied every read queue |
| DrainExact.LeakyLoses | runtime/src/runtime.cc:392-422 | wherever a job leaks there is a clean run that returns without error with a script undelivered or a payload left in a queue that is read |
| DrainExact.DrainsExactly | runtime/src/runtime.cc:392-422 | some clean run of an acyclic, fully wired job returns without error and undrained, if and only if it leaks at some place of its spawn order |
| LostPayload.JobCanLosePayload | runtime/src/runtime.cc:392-422 | a clean job run, its stop requested only after the spawn loop, that returns without error with a produced payload left in its queue, never consumed |
| CondQueue.NoWakeupIsLost | runtime/include/flowpipe/bounded_queue.h:18-55 | under every interleaving, while the queue is open and stop unset: un-notified consumers sleep only if items <= notified consumers, un-notified producers only if free slots <= notified producers |
| CondQueue.SleepersAreServed | runtime/include/flowpipe/bounded_queue.h:18-48 | if the queue can serve a sleeper, some notified thread of its kind finds its guard true and does not sleep again |
| CondQueue.NobodySleepsAfterClose | runtime/include/flowpipe/bounded_queue.h:50-55 | after close nobody sleeps, and nobody falls asleep later |
| CondQueue.StopAloneStrands | runtime/include/flowpipe/bounded_queue.h:20-25 | a run in which stop leaves a consumer asleep un-notified, until close |
| CondQueue.SectionsAreAtomic | runtime/include/flowpipe/bounded_queue.h:18-48 | every locked section is the guard-level operation of its own kind: a pop section takes the front item or nothing and never closes, a push section appends its own item or nothing; and its caller is left asleep exactly when its guard is false |
| SleepingFlow.StepIsSection | runtime/include/flowpipe/bounded_queue.h:18-55 | every step of the whole flow with sleeping workers is, on each of its queues, one locked section of that queue or nothing |
| SleepingFlow.DeepRunInv | runtime/include/flowpipe/bounded_queue.h:18-55 | in every reachable state of that flow every queue keeps the no-lost-wakeup invariant, and without its sleepers the state is one the guard-level flow reaches |
| SleepingFlow.StoppedFlowMoves | runtime/src/runtime.cc:529-547 | in any mode, from the request to stop on and whenever main does more than wait for it, some thread that is awake can move until run has returned: whoever stop left asleep is woken by the closing that follows |
| SleepingFlow.SleepingJobNeverStuck | runtime/src/runtime.cc:281-542 | deadlock freedom with sleeping threads: in a job over an acyclic, fully wired flow, in every reachable state, some thread that is not asleep can move exactly until run has returned |
| RunnerSteps.WorkerFollowsRunner | runtime/src/stage_runner.cc:124-413 | in every run of the whole flow, each worker is carried from its start by its own moves alone: one execution of its runner among arbitrary neighbours |
| StageRunner.Others.Pop | runtime/include/flowpipe/bounded_queue.h:35-48 | the wait loop over the queue object, whatever the other threads do between evaluations of its predicate |
| StageRunner.Others.Push | runtime/include/flowpipe/bounded_queue.h:18-33 | the same for push |
| StageRunner.Others.RequestStop | runtime/include/flowpipe/stop_token.h:24-28 | sets the shared flag as the step that ends a throwing call |
| StageRunner.Others.Close | runtime/src/stage_runner.cc:266 | closes the input queue after a throwing process() |
| StageRunner.RunSourceStage | runtime/src/stage_runner.cc:124-202 | the source loop over shared objects takes exactly its steps of the transition system among arbitrary neighbours, and its metrics are the worker's |
| StageRunner.RunTransformStage | runtime/src/stage_runner.cc:207-319 | the same for the transform loop, with the closing of the input queue on a throw |
| StageRunner.RunSinkStage | runtime/src/stage_runner.cc:324-413 | the same for the sink loop |
| StageRunner.Reenact | runtime/src/stage_runner.cc:124-413 | given the moves a worker made in any run of the flow, its runner executes them and ends with that run's metrics |
| Registry.DestroyedAtMostOnce | runtime/src/stage_registry.cc:54-82 | in no trace of the registry is a stage destroyed twice |
| Registry.PluginOutlivesStage | runtime/src/stage_registry.cc:70-82 | between creation and destruction of a stage that was not lost its plugin is loaded and not unloaded |
| Registry.AllDestroyedInTime | runtime/src/stage_registry.cc:31-82 | once only lost stages are alive, every stage ever created was destroyed exactly once, before its plugin was unloaded, if and only if none was lost |
| Registry.StageRegistry.CreateStage | runtime/src/stage_registry.cc:21-52 | returns a stage exactly when the plugin is or gets loaded and the stage is created and configured; loads a plugin at most once and keeps it on failure; destroys a stage that rejects its configuration, and loses one whose configure() throws, alive and unregistered |
| Registry.StageRegistry.DestroyStage | runtime/src/stage_registry.cc:54-65 | destroys a registered stage once and leaves any other alone |
| Registry.StageRegistry.Shutdown | runtime/src/stage_registry.cc:70-82 | destroys every registered stage in order, then unloads every plugin once; a second call does nothing; every stage ever created was then destroyed in time if and only if none was lost |
| MetaAttributes.LastWriteWins | runtime/include/flowpipe/payload.h:66-98 | what a key reads as is decided by the last call that set, erased, cleared or copied over it |
| MetaAttributes.CopiesAreIndependent | runtime/include/flowpipe/payload.h:48-98 | a copy nobody assigns over ends as if only its own calls had been made |
| MetaAttributes.PayloadMeta.HasAttrs | runtime/include/flowpipe/payload.h:62-64 | tells whether the copy has any attribute |
| MetaAttributes.PayloadMeta.GetAttr | runtime/include/flowpipe/payload.h:66-73 | reads the copy's own contents, nothing for a missing key or a null map |
| MetaAttributes.PayloadMeta.SetAttr | runtime/include/flowpipe/payload.h:75-79 | sets one key in a fresh map object, changing no other object |
| MetaAttributes.PayloadMeta.EraseAttr | runtime/include/flowpipe/payload.h:81-94 | erases one key, in a fresh object or to null when it was the last; reports and changes nothing for a missing key |
| MetaAttributes.PerformAll | runtime/include/flowpipe/payload.h:48-98 | any calls on any copies, however maps are shared: the copies end as independent maps, and every map object ever shown still holds what it held then, null exactly for no attributes |
| YamlToJson.JsonEscapeString | runtime/include/flowpipe/util/yaml_to_json.h:35-65 | appends the quoted, escaped string |
| YamlToJson.YamlMapToJson | runtime/include/flowpipe/util/yaml_to_json.h:67-81 | appends the printed map, separators between entries only |
| YamlToJson.YamlSeqToJson | runtime/include/flowpipe/util/yaml_to_json.h:83-91 | appends the printed sequence |
| YamlToJson.YamlScalarToJson | runtime/include/flowpipe/util/yaml_to_json.h:93-110 | appends true for the three casings of true, yes and on, false for those of false, no and off, and the quoted string otherwise |
| YamlToJson.YamlToJson | runtime/include/flowpipe/util/yaml_to_json.h:112-131 | appends the printed tree, for every tree |
| YamlRoundTrip.QuotedString | runtime/include/flowpipe/util/yaml_to_json.h:35-65 | decoding a quoted string followed by any text gives the string back and leaves the text |
| YamlRoundTrip.EscapesSpelledOut | runtime/include/flowpipe/util/yaml_to_json.h:35-65 | exactly the quote, the backslash and control characters are escaped, in two characters or as four lower-case digits |
| YamlRoundTrip.Decodes | runtime/include/flowpipe/util/yaml_to_json.h:67-131 | the RFC 8259 decoder on a printed tree followed by any text returns exactly the tree, boolean words as booleans, keys as strings, and leaves the text |
| YamlRoundTrip.ScalarsSpelledOut | runtime/include/flowpipe/util/yaml_to_json.h:93-131 | a printed scalar decodes to true exactly for nine words, to false exactly for nine others, all written out, and otherwise to itself; a null to null |
| YamlRoundTrip.PrintedSameExactly | runtime/include/flowpipe/util/yaml_to_json.h:67-131 | two trees print the same if and only if they mean the same |
| NameOrder.SortByName | pkg/flow/normalize/normalize.go:17-19 | sorts in place by name: sorted, and a permutation |
| NameOrder.NameLessExactly | pkg/flow/normalize/normalize.go:17-19 | the order of names is byte order: a proper beginning comes first, else the first difference decides |
| NameOrder.SortedUnique | pkg/flow/normalize/normalize.go:28-31 | when elements of one name are equal, two sorted arrangements of the same elements are equal |
| FlowSpecs.Normalize | pkg/flow/normalize/normalize.go:9-34 | in the caller's own lists: queues become a permutation sorted by name with zero capacities set to 128 and nothing else changed, stages a sorted permutation; nil gives nil |
| FlowSpecs.NormalQueuesExactly | pkg/flow/normalize/normalize.go:16-26 | every queue of a normal form is one of the given ones, or one without a capacity at 128 |
| FlowSpecs.NormalFormUnique | pkg/flow/normalize/normalize.go:16-31 | with distinct names the normal form of queues is the same for every order of the input and every correct sort |
| FlowSpecs.NormalStagesUnique | pkg/flow/normalize/normalize.go:28-31 | the same for stages |
| FlowSpecs.NormalTwice | pkg/flow/normalize/normalize.go:16-26 | with distinct names normalising again changes nothing |
| FlowSpecs.NormalFormFixed | pkg/flow/normalize/normalize.go:21-26 | a normal form has only positive capacities and is a normal form of itself |
| FlowSpecs.NormalFormExactly | pkg/flow/normalize/normalize.go:16-26 | a list of queues has one normal form if and only if any two of its queues of one name are the same once capacities are filled in |
| FlowSpecs.NormalStagesExactly | pkg/flow/normalize/normalize.go:28-31 | a list of stages has one normal order if and only if any two of its stages of one name are equal |
| FlowSpecs.Validate | pkg/flow/validate/validate.go:11-119 | accepts exactly the specs that meet the declarative rules, and each error names something that is wrong |
| FlowSpecs.NormalSpecsAgree | pkg/flow/validate/validate.go:9-11 | validation says the same of a spec and of its normal form |
| Wiring.BuildQueues | runtime/src/runtime.cc:200-240 | builds every queue, with the capacity and the schema id of its spec, exactly when capacities are positive, names distinct, schema ids present and types supported; an error names a real fault |
| Wiring.BuildableExactly | runtime/src/runtime.cc:202-230 | queues can be built exactly when no error, each spelled out, is justified |
| Wiring.CountProducers | runtime/src/runtime.cc:281-291 | the count for each output queue is the number of threads of the stages that write it |
| Wiring.AcceptedQueuesBuild | runtime/src/runtime.cc:202-230 | an accepted, normalised spec builds its queues unless a schema has no id or a type is unsupported; no capacity or duplicate error |
| Wiring.AcceptedStagesWire | runtime/src/runtime.cc:298-372 | an accepted stage gets its workers exactly when its CPUs and priority are valid on the machine, every instance is made and implements the first one's interface, and it declares the queues that interface needs; no thread-count error and no missing queue |
| Wiring.ValidateCpuPinning | runtime/src/runtime.cc:115-147 | accepts exactly lists of different CPUs of the machine, and each error names a real fault |
| Wiring.PriorityExactly | runtime/src/runtime.cc:64-91 | a priority that fits an int is compared with the valid range as it is, and one that does not is refused |
| Wiring.WiresExactly | runtime/src/runtime.cc:298-498 | a stage gets its workers exactly when the machine accepts its settings, all instances are made, and there is one role they all play: a source writes the stage's output, a transform reads its input and writes its output, a sink reads its input, no other queue declared |
| Wiring.FaultyNeverWires | runtime/src/runtime.cc:302-498 | no stage that wires has any of the faults, each spelled out |
| Wiring.WireStage | runtime/src/runtime.cc:298-498 | one stage: the role it gets reads and writes the very queues it names, by the interface of its first instance; otherwise the error says what is wrong, every instance made for it is destroyed again unless its workers were being started, and the workers before a mistyped one run |
| Wiring.WiredConfig | runtime/src/runtime.cc:200-498 | a wired flow is a valid configuration: queues with the capacity and schema of their specs, workers stage by stage, as many as the spec has threads; the workers that read or write a queue are exactly those of the stages that name it; each producer count equals the number of its writers |
| Wiring.Wire | runtime/src/runtime.cc:200-498 | the wiring stops at the first queue or stage that throws, with exactly the earlier stages' workers started and their instances registered, and what the throwing stage leaves; otherwise it gives that configuration, with the workers in spawn order |
| KeyLayout.RenderInjective | api/internal/store/etcd.go:49-70 | different keys render to different strings |
| KeyLayout.KeysSpelledOut | api/internal/store/etcd.go:49-70 | the five forms of keys, written out |
| KeyLayout.NamePrefixCovers | api/internal/store/etcd.go:277 | the prefix of a name covers exactly the keys of names that start with it |
| KeyLayout.VersionsPrefixCovers | api/internal/store/etcd_schema_registry.go:196 | the versions prefix covers exactly the version keys of that name |
| VersionStore.RunIsSequential | api/internal/store/etcd.go:110-180 | rollback-free runs, any clients: nothing stored, or active = m and versions exactly 1..m; what was written stays until deleted; no key is written twice between deletes |
| VersionStore.CreateKeepsStepExactly | api/internal/store/etcd_schema_registry.go:94-127 | one undisturbed create keeps versions and pointer in step if and only if the next number fits the width of the family |
| VersionStore.DeleteTouchesOthersExactly | api/internal/store/etcd.go:272-279 | a delete touches another name's keys if and only if one that starts with the given name is stored |
| TwoStepReads.GoneExactly | api/internal/store/etcd.go:110-279 | rollback-free runs: a version stored at one moment is missing at a later one if and only if a delete of the name came in between and the name was written fewer times since; without a delete it is the same document |
| TwoStepReads.ActiveIsLast | api/internal/store/etcd.go:131-164 | rollback-free runs: active names the version of the last document written under the name, stored as written, and is absent when there is none or a delete covered it since |
| TwoStepReads.TwoStepReadExactly | api/internal/store/etcd.go:186-225 | a read of two requests among other clients: the answer is nothing exactly in that case, and without a delete it is the document that was active at the first request |
| TwoStepReads.DeletedAndRecreated | api/internal/store/etcd.go:186-225 | a run in which the flow is deleted and created again between the requests, and the read finds the new document |
| VersionRollback.RunIsContiguous | api/internal/store/etcd.go:110-333 | delete-free runs with rollbacks: versions are 1..m, active names a stored one, each document carries its key's name and version, two-step reads never miss |
| VersionRollback.OverwritesExactly | api/internal/store/etcd.go:131-164 | a create overwrites a stored version if and only if active is below the highest one, and changes no other version |
| VersionRollback.OldVersionsCanBeOverwritten | api/internal/store/etcd.go:131-164 | a run that overwrites version 2 with another document |
| SchemaListing.ListIsNumeric | api/internal/store/etcd_schema_registry.go:188-215 | however keys came and ties broke, the list is definitions 1..n in numeric order |
| SchemaListing.VersionZeroExactly | api/internal/store/etcd_schema_registry.go:144-182 | version 0, its two requests at any two moments of a run: nothing exactly when the schema was not there at the first or was deleted in between and not written up to its version again; without a delete what was active at the first request |
| SchemaListing.SchemaRunReads | api/internal/store/etcd_schema_registry.go:144-215 | a list at one moment of a run and reads at later ones, with fewer than 2^32 versions: until a delete a read of each number finds the listed definition of that number, and version 0, first asked when the list was read, finds its last |
| FlowWatch.FilterExact | controller/internal/store/etcd.go:79-130 | the filter passes exactly active keys, under the flow's own name, with what was fetched: deletions as deletions, new keys as added, others as updated |
| FlowWatch.UntouchedUnchanged | controller/internal/store/etcd.go:204-228 | a request changes no key without putting or deleting it |
| FlowWatch.ChangeTouchesActive | api/internal/store/etcd.go:161-164 | every request that changes what GetActiveFlow returns puts or deletes the active key |
| FlowWatch.NoChangeMissed | controller/internal/store/etcd.go:204-272 | so ignoring all other keys loses no change of desired state, when the fetch succeeds |
| FlowWatch.StatusUnheard | controller/internal/store/etcd.go:278-295 | a status write is stored under the flow's status key and changes no other, so no desired state; it passes the filter nowhere |
| FlowWatch.WatchConverges | controller/internal/store/etcd.go:79-272 | in every run, rollbacks and deletes included: either a flow never had an active key, or the last change touched it, and the event for it and every later one tell what the keys say in the end: gone, or added or updated with the active version and the document under that version, whenever the two requests of their fetches are answered |
| FlowWatch.ListFlows | api/internal/store/etcd.go:231-266 | the loop with its seen set returns, in key order, for each active key the version then active and the document then stored under it, when there is one, each read answered from states of its own |
| FlowWatch.ListedOnce | api/internal/store/etcd.go:251-259 | no name is listed twice |
| FlowWatch.ReadAcrossExactly | api/internal/store/etcd.go:186-225 | a read at two moments of a rollback-free run finds the flow if and only if it was there at the first and has not been deleted without being written up to that version again; it finds the version active at the first and the document stored under it at the second, which without a delete is the last document written before the first |
| FlowWatch.ReadWithRollbacks | controller/internal/store/etcd.go:240-272 | in delete-free runs with rollbacks every read finds the version active at its first request and the document stored under that version at its second |
| FlowWatch.ListsAllFlows | api/internal/store/etcd.go:231-266 | a list taken while others write holds every flow that was there at its start and not deleted before its end, with the last document written under its name before its turn came, and no flow that was not there at its start |
| FlowWatch.ListActiveFlows | controller/internal/store/etcd.go:136-185 | the controller's list holds for each active key the document of the version that the range read gave, exactly when it was found as its spec was read |
| Reconciler.OwnedApart | controller/internal/controller/runtime.go:465-482 | no object belongs to two flows |
| Reconciler.AppliedAsAsked | controller/internal/controller/runtime.go:56-93 | what a spec asks for, spelled out: a job with a schedule a CronJob that carries it, a job without one a Job, a streaming flow a DaemonSet exactly when it says so, anything else a Deployment; the config beside it, the flow's other objects untouched |
| Reconciler.EnsureRuntime | controller/internal/controller/runtime.go:32-93 | leaves one of three states, config before workload; success means exactly what the spec asks for; invalid specs change nothing; it succeeds when the API does |
| Reconciler.CreateIfMissing | controller/internal/controller/runtime.go:359-368 | an existing Job is never changed |
| Reconciler.DeleteRuntimeResources | controller/internal/controller/runtime.go:451-491 | success means all five objects of the flow are gone; failure removes some of them; nothing else changes |
| Reconciler.Reconcile | controller/internal/controller/reconcile.go:58-121 | a fetch error changes nothing; otherwise success means the cluster runs what the active spec asks for and the status names that version and workload, or the flow is deleted; a status is written only once everything it tells of is there, even when the call then fails; only the flow's own objects are touched |
| Reconciler.FlowsAreIndependent | controller/internal/controller/runtime.go:32-140 | after any calls for all flows, however they fail, a flow's objects follow from its own calls alone |
| Reconciler.RemovedIsGone | controller/internal/controller/runtime.go:451-491 | after a successful removal nothing of the flow exists until it is applied again |
| Reconciler.ObjectsAreLabelled | controller/internal/controller/runtime.go:113-121 | every object is labelled with an applied flow that owns it |
| Reconciler.ApplyTwice | controller/internal/controller/runtime.go:215-228 | applying a spec again changes nothing |
| Reconciler.RetryCompletes | controller/internal/controller/reconcile.go:45-52 | however often and wherever applying a spec failed, the retry that succeeds ends as if it had been the only call |
| Reconciler.WorkloadUpToDate | controller/internal/controller/runtime.go:359-368 | after success the workload is as the spec says if and only if it is not a Job that was there with other contents |
| Reconciler.SwitchLeavesOld | controller/internal/controller/runtime.go:75-92 | a spec with another kind of workload leaves the old one in place |

## Left out

- OpenTelemetry, logging, spans, clocks, jemalloc gauges: side channels; metrics are abstract counters per worker, and the enqueue timestamp and trace fields of a payload are not part of it.
- Applying CPU pinning and priorities in a thread, and `dlopen`: the first only logs, the second is a yes or no of the caller; in `Pipeline` every failure of the wiring is one of its faults.  Signals are `Interrupted`, a stop request at any time the main loop or a stage call allows.
- The 50 ms poll of the stop flag is one step, enabled by stop.
- Memory-order effects below sequential consistency: the atomics are modelled as single steps, as is each locked section of a queue in `Pipeline` (justified by `CondQueue.SectionsAreAtomic` and `SleepingFlow.StepIsSection`).
- PipelineTheorems.InputAlwaysValid: inside `run` only; a runner called on a queue filled by other code can meet invalid input, and the loops of `StageRunner` handle it.
- PipelineLiveness.JobReturns: sources are assumed finite and stage calls to return; fairness is not needed since every run is bounded.
- StageRunner.RunTransformStage: the loop body is split into methods (`Receive`, `Convert`, `Ship`) where the source writes it in one piece; the stage is the outcome in each move, and condition-variable sleeping is in `CondQueue`.
- PipelineCauses.StreamingStopsExactly: that a label can occur is the environment's choice; no claim says that a signal or fault does happen.
- PipelineTheorems.AllDestroyedExactly: instances are counted by worker, one for each; a stage whose creation fails before an instance exists has none.
- Registry.StageRegistry.Shutdown: the lock is left out (each method is one locked section), and stages are erased one by one where the code clears the list at the end.
- MetaAttributes.PerformAll: reference counts are not modelled; an unreferenced map object is simply not pointed at.
- FlowSpecs.Normalize: queues are values in an array where the code has pointers, so one queue object listed twice is not modelled; labels, env and the other fields of a spec are not read by this code.
- Wiring.WireStage: what `create_stage` returns for each worker is a parameter, one answer for each thread; threads that cannot be started are a fault of `Pipeline`.
- Wiring.CountProducers: the 32-bit producer count is not wrapped; fewer than 2^32 threads are assumed.
- YamlToJson.YamlMapToJson: keys are strings; the exception for a key that is no scalar is not modelled, nor is YAML parsing.
- Names of flows and schemas are non-empty, slash-free and not "." or "..": for others `path.Join` cleans the key into another one.
- VersionStore.RunIsSequential: numbers must fit (64 bits for flows, 32 for schemas); `CreateKeepsStepExactly` shows the condition is exact.  Protobuf and JSON encoding are taken as faithful, etcd as an atomic map.
- FlowWatch.ListFlows: the status that the API server returns beside each flow is left out.
- FlowWatch.WatchConverges: the watch is taken to deliver every event and fetches to be answered; the gap between the controller's initial list and the start of its watch is not covered by any claim.
- TwoStepReads.TwoStepReadExactly: in runs without rollbacks; `VersionRollback.RunIsContiguous` covers rollbacks without deletes, and runs with both are not covered.
- Reconciler.Reconcile: the work queue's delays are left out, and the time in a status; the rendering of pod templates, environment and resource options is one opaque string.
- gRPC and HTTP servers, authentication, TLS, CLI commands, leader election, generated code, Helm charts, stage plugins.
