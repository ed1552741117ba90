# Job scheduler engine: lifecycle, job engine and cluster delegation

This project is a Dafny model of the core of a small Java job scheduler. It covers
three layers:

- **The lifecycle state machine.** Every service implements it, and every job does too.
  It keeps a byte `state` with thirteen values, NEW to FAILED, and a `failException`.
  The public calls `build/init/start/stop/suspend/resume/shutdown` move it through
  overridable hooks (`doBuild`, `doInit`, …). It is projected onto the eight-valued
  public `ServiceState` enum, whose predicates callers branch on.
- **The single-node job engine.** It keeps a registry `runningJobs` from run id to
  `JobAndFuture`, behind three layers of handling:
  - admission: capacity, the engine being STARTED, and an optional singleton check;
  - construction, initialisation and persistence, with roll-back when persistence fails;
  - manual stop, lookup, the completion watcher, and the engine's own stop, which stops
    every job.
- **Cluster delegation.** A placement collaborator, `ClusterJobManager`, chooses the
  node for a run. The engine runs the job locally only when that node is its own, and
  otherwise forwards.

Hooks and collaborators are parameters. A hook, the converter's class loading and the
store's save in doRunJob are parameters of type `Outcome` (returns, or throws an
exception). Each hook runs at most once per public call, so one outcome per hook per call
is fully general. The clock is a `now: int` and the run-id generator a `freshId: string`.
The placement manager's answers are an `Option<NodeAndJobId>` for assign and an
`Option<Node>` for getAssigner. The store's getJob answer is a `Result<Option<Job>,
Exception>`. The save in stopJob has no parameter, because its failure is only logged.

The calls that do the work are `class` methods that update fields in place. Each one is
proved against a pure transition function of the old state (`Lifecycle.AfterStop`, …),
and the properties the source promises are lemmas about those functions.

Module layout:

- `wrappers.dfy`: `Option`, `Result`, `Exception` and `Outcome`.
- `service_state.dfy`: the public `ServiceState` enum and its predicates.
- `lifecycle.dfy`: the thirteen states and their byte codes, `getState` and the `isX`
  queries, the transition functions, and `class LifecycleService`.
- `lifecycle_properties.dfy`: what each query and each call promises.
- `lifecycle_runs.dfy`: arbitrary sequences of calls. It covers which states a run can
  end in, that SHUTTING_DOWN cannot be reached, and that repeated calls collapse.
- `jobs.dfy`: `Job` with its `Status` and `ExitType`, and the converter's type-tag lookup.
- `job_engine.dfy`: `class AbstractJobEngine`.
- `cluster_engine.dfy`: `class ClusterJobEngine` and `isMe`.
- `engine_runs.dfy`: sequences of engine operations on one run (admission, start, completion and a manual stop) and what they leave for the next run.

Inheritance is modelled by composition. The engine and every job own a
`LifecycleService` (`life`), and the cluster engine owns the single-node engine
(`base`). `stop()` is split into `BeginStop`/`EndStop` and `shutdown()`'s tail into
`FinishShutdown`. This lets the engine run its own `doStop` (stop every job) between
them, as the overridden hook does in the source.

## Model

| member | source | states |
|---|---|---|
| ServiceStates.StoppableIsStartedOrSuspended | engine/src/main/java/zk/js/engine/common/ServiceState.java:34-36 | isStoppable holds exactly for STARTED and SUSPENDED |
| ServiceStates.StartableIsInitializedStoppedOrSuspended | engine/src/main/java/zk/js/engine/common/ServiceState.java:30-32 | isStartable holds exactly for INITIALIZED, STOPPED and SUSPENDED |
| ServiceStates.SuspendableImpliesStoppable | engine/src/main/java/zk/js/engine/common/ServiceState.java:34-40 | isSuspendable holds only for STARTED, so it implies isStoppable and excludes isStartable |
| ServiceStates.OnlySuspendedStartableAndStoppable | engine/src/main/java/zk/js/engine/common/ServiceState.java:30-36 | SUSPENDED is the one value both startable and stoppable |
| ServiceStates.SingleStatePredicatesPartition | engine/src/main/java/zk/js/engine/common/ServiceState.java:42-72 | each value satisfies exactly one of the eight single-state predicates, and each predicate holds for one value only |
| ServiceStates.IsStartable | engine/src/main/java/zk/js/engine/common/ServiceState.java:30-32 | isStartable: the value is INITIALIZED, STOPPED or SUSPENDED |
| ServiceStates.IsStoppable | engine/src/main/java/zk/js/engine/common/ServiceState.java:34-36 | isStoppable: the value is STARTED or SUSPENDED |
| ServiceStates.IsSuspendable | engine/src/main/java/zk/js/engine/common/ServiceState.java:38-40 | isSuspendable: the value is STARTED |
| ServiceStates.IsInitializing | engine/src/main/java/zk/js/engine/common/ServiceState.java:42-44 | isInitializing: the value is INITIALIZING |
| ServiceStates.IsInitialized | engine/src/main/java/zk/js/engine/common/ServiceState.java:46-48 | isInitialized: the value is INITIALIZED |
| ServiceStates.IsStarting | engine/src/main/java/zk/js/engine/common/ServiceState.java:50-52 | isStarting: the value is STARTING |
| ServiceStates.IsStarted | engine/src/main/java/zk/js/engine/common/ServiceState.java:54-56 | isStarted: the value is STARTED |
| ServiceStates.IsStopping | engine/src/main/java/zk/js/engine/common/ServiceState.java:58-60 | isStopping: the value is STOPPING |
| ServiceStates.IsStopped | engine/src/main/java/zk/js/engine/common/ServiceState.java:62-64 | isStopped: the value is STOPPED |
| ServiceStates.IsSuspending | engine/src/main/java/zk/js/engine/common/ServiceState.java:66-68 | isSuspending: the value is SUSPENDING |
| ServiceStates.IsSuspended | engine/src/main/java/zk/js/engine/common/ServiceState.java:70-72 | isSuspended: the value is SUSPENDED |
| Lifecycle.GetState | engine/src/main/java/zk/js/engine/common/BaseLifecycleService.java:212-223 | getState: the seven states with a public counterpart map to it, and every other state reads as STOPPED (proved in GetStateProjection) |
| Lifecycle.IsNew | engine/src/main/java/zk/js/engine/common/BaseLifecycleService.java:225-227 | isNew: the state is NEW |
| Lifecycle.IsBuild | engine/src/main/java/zk/js/engine/common/BaseLifecycleService.java:229-231 | isBuild: the state is BUILT |
| Lifecycle.IsInit | engine/src/main/java/zk/js/engine/common/BaseLifecycleService.java:233-235 | isInit: the state is INITIALIZED |
| Lifecycle.IsStarted | engine/src/main/java/zk/js/engine/common/BaseLifecycleService.java:237-239 | isStarted: the state is STARTED |
| Lifecycle.IsStarting | engine/src/main/java/zk/js/engine/common/BaseLifecycleService.java:241-243 | isStarting: the state is STARTING |
| Lifecycle.IsStopping | engine/src/main/java/zk/js/engine/common/BaseLifecycleService.java:245-247 | isStopping: the state is STOPPING |
| Lifecycle.IsStopped | engine/src/main/java/zk/js/engine/common/BaseLifecycleService.java:249-251 | isStopped: the byte code is below STARTING's or at least STOPPED's (StoppedQuery says which states that is) |
| Lifecycle.IsSuspending | engine/src/main/java/zk/js/engine/common/BaseLifecycleService.java:253-255 | isSuspending: the state is SUSPENDING |
| Lifecycle.IsSuspended | engine/src/main/java/zk/js/engine/common/BaseLifecycleService.java:257-259 | isSuspended: the state is SUSPENDED |
| Lifecycle.IsRunAllowed | engine/src/main/java/zk/js/engine/common/BaseLifecycleService.java:261-263 | isRunAllowed: the byte code lies from STARTING's to SUSPENDED's |
| Lifecycle.IsShutdown | engine/src/main/java/zk/js/engine/common/BaseLifecycleService.java:265-267 | isShutdown: the state is SHUTDOWN |
| Lifecycle.IsStoppingOrStopped | engine/src/main/java/zk/js/engine/common/BaseLifecycleService.java:269-271 | isStoppingOrStopped: the byte code is below STARTING's or above SUSPENDED's |
| Lifecycle.IsSuspendingOrSuspended | engine/src/main/java/zk/js/engine/common/BaseLifecycleService.java:273-275 | isSuspendingOrSuspended: the state is SUSPENDING or SUSPENDED |
| Lifecycle.IsStartingOrStarted | engine/src/main/java/zk/js/engine/common/BaseLifecycleService.java:277-279 | isStartingOrStarted: the state is STARTING or STARTED |
| Lifecycle.InitAllowed | engine/src/main/java/zk/js/engine/common/BaseLifecycleService.java:62 | init's guard: the byte code is at most BUILT's or at least STOPPED's |
| Lifecycle.StopIsNoop | engine/src/main/java/zk/js/engine/common/BaseLifecycleService.java:121-132 | the states in which stop returns at once: FAILED, STOPPED, SHUTTING_DOWN, SHUTDOWN and STOPPING |
| Lifecycle.AfterFail | engine/src/main/java/zk/js/engine/common/BaseLifecycleService.java:281-288 | fail(ex): FAILED with ex recorded |
| Lifecycle.AfterBuild | engine/src/main/java/zk/js/engine/common/BaseLifecycleService.java:43-58 | build's effect (its properties in BuildEffect) |
| Lifecycle.AfterInit | engine/src/main/java/zk/js/engine/common/BaseLifecycleService.java:60-79 | init's effect (its properties in InitEffect) |
| Lifecycle.AfterStop | engine/src/main/java/zk/js/engine/common/BaseLifecycleService.java:119-144 | stop's effect (its properties in StopEffect and StopIdempotent) |
| Lifecycle.AfterStart | engine/src/main/java/zk/js/engine/common/BaseLifecycleService.java:81-117 | start's effect, including the cleanup stop after a failing doStart (its properties in StartEffect) |
| Lifecycle.AfterSuspend | engine/src/main/java/zk/js/engine/common/BaseLifecycleService.java:146-167 | suspend's effect (its properties in SuspendEffect) |
| Lifecycle.AfterResume | engine/src/main/java/zk/js/engine/common/BaseLifecycleService.java:169-186 | resume's effect (its properties in ResumeEffect) |
| Lifecycle.AfterShutdownHook | engine/src/main/java/zk/js/engine/common/BaseLifecycleService.java:199-208 | the tail of shutdown: SHUTDOWN, then doShutdown settles it at SHUTDOWN or FAILED |
| Lifecycle.AfterShutdown | engine/src/main/java/zk/js/engine/common/BaseLifecycleService.java:188-210 | shutdown's effect: stop, then the tail (its properties in ShutdownEffect) |
| Lifecycle.Code | engine/src/main/java/zk/js/engine/common/BaseLifecycleService.java:23-35 | each of the thirteen states has a byte constant below 13 |
| LifecycleProperties.CodesDistinct | engine/src/main/java/zk/js/engine/common/BaseLifecycleService.java:23-35 | the thirteen byte constants are pairwise distinct |
| LifecycleProperties.GetStateProjection | engine/src/main/java/zk/js/engine/common/BaseLifecycleService.java:212-223 | getState reports STOPPED exactly for NEW, BUILT, STOPPED, SHUTTING_DOWN, SHUTDOWN and FAILED, and maps the other seven states one-to-one |
| LifecycleProperties.ProjectedPredicates | engine/src/main/java/zk/js/engine/common/BaseLifecycleService.java:212-223 | through getState, isStoppable picks out exactly STARTED and SUSPENDED, and isInitialized exactly INITIALIZED; a stoppable service is run-allowed |
| LifecycleProperties.RunAllowedIsNotStoppingOrStopped | engine/src/main/java/zk/js/engine/common/BaseLifecycleService.java:261-271 | isRunAllowed is exactly the negation of isStoppingOrStopped and holds for STARTING through SUSPENDED |
| LifecycleProperties.StoppedQuery | engine/src/main/java/zk/js/engine/common/BaseLifecycleService.java:245-251 | isStopped is isStoppingOrStopped without STOPPING; it also holds for INITIALIZED, which getState does not report as STOPPED |
| LifecycleProperties.InitAllowedIsReportedStopped | engine/src/main/java/zk/js/engine/common/BaseLifecycleService.java:60-63 | init's guard holds exactly in the states getState reports as STOPPED |
| LifecycleProperties.BuildEffect | engine/src/main/java/zk/js/engine/common/BaseLifecycleService.java:43-58 | build changes only NEW, always into BUILT, whatever doBuild does, and never records an exception |
| LifecycleProperties.InitEffect | engine/src/main/java/zk/js/engine/common/BaseLifecycleService.java:60-79 | init outside its guard changes nothing; inside it ends INITIALIZED, or FAILED with doInit's exception recorded |
| LifecycleProperties.StartEffect | engine/src/main/java/zk/js/engine/common/BaseLifecycleService.java:81-117 | start is a no-op from STARTED and STARTING and stops at a failed init; it ends STARTED when doStart returns and otherwise FAILED with doStart's exception, the cleanup stop's failure being discarded |
| LifecycleProperties.QuietStartReachesStarted | engine/src/main/java/zk/js/engine/common/BaseLifecycleService.java:81-117 | with hooks that return, start reaches STARTED from every state but STARTING |
| LifecycleProperties.StopEffect | engine/src/main/java/zk/js/engine/common/BaseLifecycleService.java:119-144 | stop is a no-op from FAILED, STOPPING, STOPPED, SHUTTING_DOWN and SHUTDOWN, and otherwise ends STOPPED or FAILED with doStop's exception |
| LifecycleProperties.StopIdempotent | engine/src/main/java/zk/js/engine/common/BaseLifecycleService.java:119-144 | two stop calls have the effect of one, whatever the second hook would do |
| LifecycleProperties.SuspendEffect | engine/src/main/java/zk/js/engine/common/BaseLifecycleService.java:146-167 | suspend is a no-op only from SUSPENDED and SUSPENDING; from every other state, NEW and STOPPED included, it ends SUSPENDED or FAILED |
| LifecycleProperties.ResumeEffect | engine/src/main/java/zk/js/engine/common/BaseLifecycleService.java:169-186 | resume acts only from SUSPENDED and ends STARTED or FAILED with doResume's exception |
| LifecycleProperties.ShutdownEffect | engine/src/main/java/zk/js/engine/common/BaseLifecycleService.java:188-210 | shutdown is a no-op from SHUTDOWN; otherwise it stops and ends SHUTDOWN, or FAILED with doShutdown's exception; a failed doStop is masked by SHUTDOWN but kept as failException |
| LifecycleProperties.NoCallEntersShuttingDown | engine/src/main/java/zk/js/engine/common/BaseLifecycleService.java:43-210 | no lifecycle call moves a service into SHUTTING_DOWN |
| LifecycleRuns.RunAppend | engine/src/main/java/zk/js/engine/common/BaseLifecycleService.java:43-210 | running two call sequences one after the other is running their concatenation |
| LifecycleRuns.ApplyKeepsResting | engine/src/main/java/zk/js/engine/common/BaseLifecycleService.java:43-210 | a call made in a resting state ends in a resting state |
| LifecycleRuns.RunEndsResting | engine/src/main/java/zk/js/engine/common/BaseLifecycleService.java:43-210 | any sequence of calls from a resting state ends in a resting state, never SHUTTING_DOWN |
| LifecycleRuns.ShuttingDownUnreachable | engine/src/main/java/zk/js/engine/common/BaseLifecycleService.java:33 | from NEW, no sequence of calls reaches SHUTTING_DOWN |
| LifecycleRuns.RestingStatesReachable | engine/src/main/java/zk/js/engine/common/BaseLifecycleService.java:43-210 | every resting state is the end of some run from NEW |
| LifecycleRuns.SecondCallIsNoop | engine/src/main/java/zk/js/engine/common/BaseLifecycleService.java:43-210 | repeating a call whose first instance settled leaves the service as the first left it |
| LifecycleRuns.RepeatedCallCollapses | engine/src/main/java/zk/js/engine/common/BaseLifecycleService.java:43-210 | anywhere in a run, such a repeated call can be dropped without changing the outcome |
| Lifecycle.LifecycleService.constructor | engine/src/main/java/zk/js/engine/common/BaseLifecycleService.java:41 | a new service is NEW with no failException |
| Lifecycle.LifecycleService.Fail | engine/src/main/java/zk/js/engine/common/BaseLifecycleService.java:281-288 | records the exception and moves to FAILED |
| Lifecycle.LifecycleService.Build | engine/src/main/java/zk/js/engine/common/BaseLifecycleService.java:43-58 | the new state is AfterBuild of the old one |
| Lifecycle.LifecycleService.Init | engine/src/main/java/zk/js/engine/common/BaseLifecycleService.java:60-79 | the new state is AfterInit of the old one |
| Lifecycle.LifecycleService.Start | engine/src/main/java/zk/js/engine/common/BaseLifecycleService.java:81-117 | the new state is AfterStart of the old one |
| Lifecycle.LifecycleService.BeginStop | engine/src/main/java/zk/js/engine/common/BaseLifecycleService.java:119-133 | stop goes on exactly when the old state is not a no-op state, and then the service is STOPPING |
| Lifecycle.LifecycleService.EndStop | engine/src/main/java/zk/js/engine/common/BaseLifecycleService.java:135-142 | from STOPPING, ends STOPPED or FAILED by doStop's outcome |
| Lifecycle.LifecycleService.Stop | engine/src/main/java/zk/js/engine/common/BaseLifecycleService.java:119-144 | the new state is AfterStop of the old one |
| Lifecycle.LifecycleService.Suspend | engine/src/main/java/zk/js/engine/common/BaseLifecycleService.java:146-167 | the new state is AfterSuspend of the old one |
| Lifecycle.LifecycleService.Resume | engine/src/main/java/zk/js/engine/common/BaseLifecycleService.java:169-186 | the new state is AfterResume of the old one |
| Lifecycle.LifecycleService.FinishShutdown | engine/src/main/java/zk/js/engine/common/BaseLifecycleService.java:199-208 | ends SHUTDOWN, or FAILED with doShutdown's exception |
| Lifecycle.LifecycleService.Shutdown | engine/src/main/java/zk/js/engine/common/BaseLifecycleService.java:188-210 | the new state is AfterShutdown of the old one |
| Jobs.Job.constructor | engine/src/main/java/zk/js/engine/job/Job.java:27-51 | a new job has its definition and run id, the initial Status, and a fresh NEW lifecycle |
| Jobs.ConvertJobDefinition | engine/src/main/java/zk/js/engine/job/DefaultJobConverter.java:31-47 | an unknown type tag is an unsupported-type error; otherwise success exactly when instantiation succeeds, yielding the configured class, or an instantiation error naming it |
| JobEngines.NormalizedJobCount | engine/src/main/java/zk/js/engine/AbstractJobEngine.java:58-63 | the bound is always positive: a positive request is kept and a non-positive one becomes Long.MAX_VALUE |
| JobEngines.AbstractJobEngine.constructor | engine/src/main/java/zk/js/engine/AbstractJobEngine.java:51-56 | a new engine is NEW with an empty registry, the bound Long.MAX_VALUE and its invariant |
| JobEngines.AbstractJobEngine.SetMaxRunningJobCount | engine/src/main/java/zk/js/engine/AbstractJobEngine.java:58-63 | the bound becomes the normalised request and the registry is untouched |
| JobEngines.RunVerdict | engine/src/main/java/zk/js/engine/AbstractJobEngine.java:78-111 | doRunJob succeeds exactly when the registry is below the bound, the engine is STARTED, conversion succeeds, job init succeeds and the save succeeds, with the given run id; each failure names the first gate that fails (capacity, NotStarted with the engine state, ConversionFailed, JobInitFailed, StoreFailed) |
| JobEngines.AbstractJobEngine.DoRunJob | engine/src/main/java/zk/js/engine/AbstractJobEngine.java:78-111 | the answer is RunVerdict's. A failure before the save leaves the registry and the store untouched. A failed save removes the run id again (RollbackRestoresRegistry: for a fresh id, the registry is as before). On success the registry gains exactly the run id, mapped to a fresh, submitted, INITIALIZED job with the start time stamped; other entries are unchanged; the size bound is kept |
| JobEngines.AbstractJobEngine.CreateAndPersist | engine/src/main/java/zk/js/engine/AbstractJobEngine.java:86-105 | past the capacity, state and conversion gates: a failed init is JobInitFailed carrying the job's fail exception, with nothing registered or saved; otherwise the effect is DoRunJob's |
| JobEngines.RollbackRestoresRegistry | engine/src/main/java/zk/js/engine/AbstractJobEngine.java:93-99 | putting an entry and removing its key again gives back the registry when the key was new, and otherwise the registry without that key, one entry smaller |
| JobEngines.AbstractJobEngine.Persist | engine/src/main/java/zk/js/engine/AbstractJobEngine.java:92-105 | the job is put under its run id and saved; a failed save removes the run id; a successful one stamps the start time and submits the entry |
| JobEngines.AbstractJobEngine.Put | engine/src/main/java/zk/js/engine/AbstractJobEngine.java:92-93 | the registry gains the run id with an entry without a future |
| JobEngines.AbstractJobEngine.Remove | engine/src/main/java/zk/js/engine/AbstractJobEngine.java:99 | the registry loses the run id and nothing else |
| JobEngines.AbstractJobEngine.Submit | engine/src/main/java/zk/js/engine/AbstractJobEngine.java:103-104 | the entry gets its future and the job its start time; nothing else changes |
| JobEngines.InitializedJob | engine/src/main/java/zk/js/engine/AbstractJobEngine.java:86-88 | a fresh job with the definition and the run id, and a lifecycle that went through init from NEW |
| JobEngines.AbstractJobEngine.RunJob | engine/src/main/java/zk/js/engine/AbstractJobEngine.java:65-76 | a singleton request whose definition id is a registry key fails and changes nothing; otherwise the effect is DoRunJob's under the fresh run id |
| JobEngines.ExistJobRunningWithDefinitionId | engine/src/main/java/zk/js/engine/AbstractJobEngine.java:192-194 | (as written) the definition id is looked up among the registry's keys |
| JobEngines.LiveDefinitionIds | engine/src/main/java/zk/js/engine/AbstractJobEngine.java:192-194 | the definition ids of the registered jobs, the set the singleton check should consult |
| JobEngines.AsWrittenSingletonCheckMissesLiveJob | engine/src/main/java/zk/js/engine/AbstractJobEngine.java:192-194 | a job registered under a run id other than its definition id is invisible to the check as written |
| JobEngines.LiveDefinitionAfterRegistration | engine/src/main/java/zk/js/engine/AbstractJobEngine.java:67-74 | keyed by definition, a registered job's definition is always seen, and registering adds no other definition |
| JobEngines.AbstractJobEngine.RunJobSingletonByDefinition | engine/src/main/java/zk/js/engine/AbstractJobEngine.java:65-76 | (corrected) a singleton request is refused exactly while a job from that definition is registered; after a success the definition is live |
| JobEngines.ManuallyStoppedStatus | engine/src/main/java/zk/js/engine/AbstractJobEngine.java:154-161 | an unset exit type becomes MANUAL_STOP and a set one is kept; a zero stop time becomes `now` and a non-zero one is kept; no other status field changes |
| JobEngines.AbstractJobEngine.StopJob | engine/src/main/java/zk/js/engine/AbstractJobEngine.java:138-172 | nothing changes unless the engine is STARTED, the run id is registered and the job is stoppable; otherwise the status is ManuallyStoppedStatus, the job is stopped, only the run id is removed, the save is recorded and no failure propagates |
| JobEngines.AbstractJobEngine.RunSubmitted | engine/src/main/java/zk/js/engine/AbstractJobEngine.java:115 | the pool's task runs the job's start(): the job's lifecycle goes through AfterStart and the registry and store are untouched; an admitted INITIALIZED job whose doStart returns is STARTED, and stopJob then acts on it while the engine is STARTED |
| JobEngines.AbstractJobEngine.WaitJob | engine/src/main/java/zk/js/engine/AbstractJobEngine.java:174-190 | an unregistered run id is an error; waiting succeeds exactly when the entry is registered and has its future |
| JobEngines.AbstractJobEngine.GetJob | engine/src/main/java/zk/js/engine/AbstractJobEngine.java:201-213 | a registry hit returns the registered job without the store; a miss returns the store's answer, and a store error gives null |
| JobEngines.WatchedExitType | engine/src/main/java/zk/js/engine/AbstractJobEngine.java:117-129 | (as written) a fault gives FAILED; a normal end gives FINISHED only when an exit type was already set |
| JobEngines.AsWrittenWatcherMisclassifies | engine/src/main/java/zk/js/engine/AbstractJobEngine.java:119-121 | as written, an unclassified job that ends normally keeps no exit type, and a manual stop is relabelled FINISHED |
| JobEngines.IntendedExitType | engine/src/main/java/zk/js/engine/AbstractJobEngine.java:117-129 | (corrected) every completion leaves an exit type; a fault gives FAILED, a set type is kept, and an unset one becomes FINISHED |
| JobEngines.IntendedWatcherKeepsManualStop | engine/src/main/java/zk/js/engine/AbstractJobEngine.java:119-121 | with the intended test, a normal end gives FINISHED and a manual stop survives the completion |
| JobEngines.AbstractJobEngine.CompleteJob | engine/src/main/java/zk/js/engine/AbstractJobEngine.java:116-135 | (as written) the exit type becomes WatchedExitType's; the job is stopped when stoppable; the registry is not touched |
| JobEngines.AbstractJobEngine.CompleteJobIntended | engine/src/main/java/zk/js/engine/AbstractJobEngine.java:116-135 | (corrected) the exit type becomes IntendedExitType's and the job is stopped when stoppable, as in CompleteJob; then the run's entry is removed, so the registry is the old one without the run id, and the bound and the store are untouched |
| JobEngines.AbstractJobEngine.DoStop | engine/src/main/java/zk/js/engine/AbstractJobEngine.java:215-221 | every registered job's lifecycle goes through stop, and the registry is unchanged |
| JobEngines.AbstractJobEngine.Stop | engine/src/main/java/zk/js/engine/AbstractJobEngine.java:215-221 | the engine's lifecycle goes through stop, and when that proceeds every registered job is stopped |
| JobEngines.AbstractJobEngine.Start | engine/src/main/java/zk/js/engine/common/BaseLifecycleService.java:81-117 | the engine's lifecycle goes through start with its no-op hooks |
| JobEngines.AbstractJobEngine.Shutdown | engine/src/main/java/zk/js/engine/common/BaseLifecycleService.java:188-210 | the engine's lifecycle goes through shutdown, and its stop stops every registered job |
| EngineRuns.FinishRunAsWritten | engine/src/main/java/zk/js/engine/AbstractJobEngine.java:115-167 | (as written) start, a normal completion and a later manual stop of an admitted run leave the registry exactly as it was: the watcher never removes the entry and stopJob returns at its stoppable gate |
| EngineRuns.FinishRunReleasing | engine/src/main/java/zk/js/engine/AbstractJobEngine.java:115-167 | (corrected) the same sequence with the completion that gives the slot back leaves the registry without the run id and nothing else |
| EngineRuns.CompletedRunKeepsSlot | engine/src/main/java/zk/js/engine/AbstractJobEngine.java:79-162 | (as written) with room for one job, once a first run has been admitted and has finished, it is still registered and the second run is refused for capacity |
| EngineRuns.ReleasedRunFreesSlot | engine/src/main/java/zk/js/engine/AbstractJobEngine.java:79-111 | (corrected) in the same sequence the second run is never refused for capacity, and it is admitted, alone in the registry, whenever its definition converts |
| ClusterEngines.IsMe | engine/src/main/java/zk/js/engine/cluster/AbstractClusterJobEngine.java:60-66 | a null target is a null-pointer error, before a missing own node, which is an illegal-state error; otherwise the answer is whether the node ids are equal |
| ClusterEngines.IsMeSymmetric | engine/src/main/java/zk/js/engine/cluster/AbstractClusterJobEngine.java:65 | comparing two nodes does not depend on the order |
| ClusterEngines.IsMeById | engine/src/main/java/zk/js/engine/cluster/AbstractClusterJobEngine.java:65 | only node ids decide, and a node is always itself |
| ClusterEngines.ClusterJobEngine.constructor | engine/src/main/java/zk/js/engine/cluster/AbstractClusterJobEngine.java:30-33 | a new cluster engine has its node and an empty single-node engine, whose own lifecycle is fresh and NEW |
| ClusterEngines.ClusterJobEngine.RunJob | engine/src/main/java/zk/js/engine/cluster/AbstractClusterJobEngine.java:35-47 | assign is called once. No assignment, or an isMe error, fails with nothing local changed. A remote node yields its run id with nothing local changed. This node runs DoRunJob under the assigned id, without the singleton check |
| ClusterEngines.ClusterJobEngine.StopJob | engine/src/main/java/zk/js/engine/cluster/AbstractClusterJobEngine.java:49-58 | getAssigner is called once. On this node the local stop runs and jobFinished follows, even when the stop did nothing. On a remote node, stopJobOnNode is the only further call and nothing local changes |
| ClusterEngines.ForwardedStops | engine/src/main/java/zk/js/engine/cluster/AbstractClusterJobEngine.java:55-57 | the count of stopJobOnNode calls in a trace is zero exactly when the trace has none, and the trace's length exactly when every call is one |
| ClusterEngines.ForwardedStopsAppend | engine/src/main/java/zk/js/engine/cluster/AbstractClusterJobEngine.java:55-57 | the number of forwarded stops in a trace adds up over concatenation |
| ClusterEngines.RemoteStopForwardsOnce | engine/src/main/java/zk/js/engine/cluster/AbstractClusterJobEngine.java:49-58 | a remote stop adds exactly one forwarded stop to the trace; a local stop or a failed routing adds none |

## Left out

- The worker pool. `ExecutorService` and `Future` are not modelled, nor is the double-checked lock. The watcher is one sequential completion step, `CompleteJob`, with the job's outcome as a parameter.
- When the pool runs a job. The job's `start()` in the pool (line 115 of AbstractJobEngine.java) is the step `RunSubmitted`, which a caller interleaves with the other operations; which interleavings the pool allows is not modelled. STARTING is visible only to other threads.
- Interrupt handling in the watcher, and the sleep-polling in waitJob. The blocking `future.get()` in waitJob, and the job's exception that it rethrows, are left out too.
- The UUID generator, the clock and logging. Run ids and timestamps are parameters.
- Reflective class loading in the converter. Its outcome is a parameter, and only the type-tag lookup is modelled.
- The job store and the placement manager. Both are external. Their answers are parameters. The ghost trace `storeCalls` records every saveJob call; getJob's store reads are not traced. The ghost trace `managerCalls` records every call to the placement manager.
- The `doFail` hook. Its default is empty, and a failing `doBuild` reaches it and nothing else, as `AfterBuild` states.
- `doLifecycleChange` and its try-with-resources. It returns null and has no behaviour.
- The engine's suspend, resume, build and init are not separate methods. They are the lifecycle's, reached through `life` with the engine's no-op hooks.
- `JgroupsBasedClusterJobEngine`, `StandaloneJobEngine` (it only wires the collaborators and a cap of 1000), `JobRef`, `SumNumberJob` and the tests. Node's own source is not part of this model. A node is modelled by its id only, which may be null.
- Jobs.Job.constructor: the run id is fixed when the job is made. The source sets it with `setId` right after conversion (lines 86-87 of AbstractJobEngine.java) and never changes it afterwards.
- JobEngines.AbstractJobEngine.DoRunJob: `runningJobs.size()` is an int compared with a long bound, and sizes beyond 2^31 are not modelled.
- JobEngines.AbstractJobEngine.DoStop: the registry is walked in an unspecified order. The source's iteration order over the map's values is not modelled.
- JobEngines.AbstractJobEngine.RunJob: ids are strings and never null. The registry is a ConcurrentHashMap (line 49 of AbstractJobEngine.java), so a singleton run of a definition whose id was never set throws NullPointerException at line 193; that exception is not modelled.
- JobEngines.AbstractJobEngine.StopJob: a null run id, which throws NullPointerException at line 147 while the engine is STARTED, is not modelled.
- JobEngines.AbstractJobEngine.WaitJob: a null run id, which throws NullPointerException at line 176, is not modelled.
- JobEngines.AbstractJobEngine.GetJob: a null run id, which throws NullPointerException at line 203, is not modelled.
- JobEngines.AbstractJobEngine.DoRunJob: the save's `Throws` stands for a JobStoreException, the only exception caught at line 97. Any other exception from saveJob escapes doRunJob and leaves the entry registered but never submitted; that path is not modelled.
- JobEngines.AbstractJobEngine.StopJob: the save at line 165 fails, if at all, with a JobStoreException, which is logged. Any other exception from saveJob would escape stopJob after the remove; that is not modelled.
- JobEngines.AbstractJobEngine.StopJob: hooks are outcomes and cannot write the job's Status, so the job's own doStop never sets a stop time. The source tests the stop time after `job.stop()` (lines 157-161) to keep a time the job set itself; the model's stop time is the one from before the stop, completed with `now`.

## Findings

| source | as written | input that shows it | evidently intended | confidence | as-written member | corrected member |
|---|---|---|---|---|---|---|
| engine/src/main/java/zk/js/engine/AbstractJobEngine.java:193 | the singleton check looks the definition id up among the registry's keys, which are run ids | definition "d" is running under run id "u" (u ≠ d); a second singleton run of "d" is admitted | refuse while any registered job comes from the same definition | not executed | JobEngines.AsWrittenSingletonCheckMissesLiveJob | JobEngines.AbstractJobEngine.RunJobSingletonByDefinition |
| engine/src/main/java/zk/js/engine/AbstractJobEngine.java:119-121 | on normal completion FINISHED is set only when an exit type is already non-null | a job that ends without setting an exit type keeps null; a job stopped by hand (MANUAL_STOP) becomes FINISHED when its body returns | set FINISHED only when the job left the exit type null, as the comment at line 120 says | not executed | JobEngines.AsWrittenWatcherMisclassifies | JobEngines.IntendedWatcherKeepsManualStop |
| engine/src/main/java/zk/js/engine/AbstractJobEngine.java:116-162 | the watcher stops a finished job but never removes its entry, and stopJob's stoppable gate then returns before its remove; the only other remove is the roll-back of a failed save | room for one job; run A is admitted, its doStart returns, it completes normally and is then stopped by hand; run B is refused with max job count reached | a finished run gives its slot back | not executed | EngineRuns.CompletedRunKeepsSlot | EngineRuns.ReleasedRunFreesSlot |
