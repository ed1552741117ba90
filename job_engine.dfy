/** The single-node job engine (engine/src/main/java/zk/js/engine/AbstractJobEngine.java):
    a registry of running jobs keyed by run id, admission under a capacity bound,
    stopping, lookup, and the completion watcher.

    The worker pool is not modelled: what the pool's second task does once a job's body
    has finished is the sequential step CompleteJob. The clock, the UUID generator, the
    converter's class loading, the job's hooks and the job store are parameters. */
module JobEngines {
  import opened Wrappers
  import SS = ServiceStates
  import L = Lifecycle
  import opened Jobs

  const LongMax: int := 0x7fff_ffff_ffff_ffff
  const LongMin: int := -0x8000_0000_0000_0000

  /** Java's long. */
  type Long = x: int | LongMin <= x <= LongMax

  /** setMaxRunningJobCount: a non-positive bound means "unbounded", i.e. Long.MAX_VALUE. */
  function NormalizedJobCount(n: Long): (r: Long)
    ensures r > 0
    ensures n > 0 ==> r == n
    ensures n <= 0 ==> r == LongMax
  {
    if n <= 0 then LongMax else n
  }

  /** A registry entry: the job, and whether its future has been attached (submitJob). */
  datatype JobAndFuture = JobAndFuture(job: Job, submitted: bool)

  datatype EngineError =
    | SingletonViolation(definitionId: string)
    | MaxJobCountReached(definitionId: string)
    | NotStarted(state: SS.ServiceState)
    | ConversionFailed(converterError: ConverterError)
    | JobInitFailed(initFailure: Option<Exception>)
    | StoreFailed(storeFailure: Exception)
    | NoSuchJob(jobId: string)
    | TryLater

  /** What the collaborators of one doRunJob call do: class loading in the converter,
      the new job's doBuild and doInit hooks, the store's saveJob, and the clock. */
  datatype RunEnvironment = RunEnvironment(
    instantiation: Outcome,
    jobBuild: Outcome,
    jobInit: Outcome,
    save: Outcome,
    now: int)

  /** A call to the job store's saveJob, with the status the job had at that moment. */
  datatype StoreCall = SaveJob(jobId: string, status: Status)

  /** How a job's future completed: its body returned, or it threw (ExecutionException). */
  datatype Completion = Normal | Fault(cause: Exception)

  // ---------------------------------------------------------------- singleton check

  /** existJobRunningWithDefinitionId as written: it looks the definition id up among the
      registry's keys, which are run ids. */
  function ExistJobRunningWithDefinitionId(registry: map<string, JobAndFuture>, definitionId: string): bool {
    definitionId in registry
  }

  /** The ids of the definitions the registered jobs were made from. */
  function LiveDefinitionIds(registry: map<string, JobAndFuture>): set<string> {
    set k | k in registry :: registry[k].job.definition.id
  }

  /** A job from `definitionId` registered under a run id that differs from it goes
      unnoticed by the check as written. */
  lemma AsWrittenSingletonCheckMissesLiveJob(registry: map<string, JobAndFuture>, runId: string, entry: JobAndFuture)
    requires runId != entry.job.definition.id && entry.job.definition.id !in registry
    ensures entry.job.definition.id in LiveDefinitionIds(registry[runId := entry])
    ensures !ExistJobRunningWithDefinitionId(registry[runId := entry], entry.job.definition.id)
  {
    assert registry[runId := entry][runId] == entry;
  }

  /** Keyed by definition, the check sees every registered job's definition. */
  lemma LiveDefinitionAfterRegistration(registry: map<string, JobAndFuture>, runId: string, entry: JobAndFuture)
    ensures entry.job.definition.id in LiveDefinitionIds(registry[runId := entry])
    ensures LiveDefinitionIds(registry[runId := entry]) <= LiveDefinitionIds(registry) + {entry.job.definition.id}
  {
    assert registry[runId := entry][runId] == entry;
  }

  // ---------------------------------------------------------------- admission

  /** The answer of doRunJob(definition, jobId) on a registry of `size` entries under the
      bound `max`, with the engine in `engine`, the converter's answer `converted` and the
      collaborators `env`: the gates are tried in the source's order and the first that
      fails gives the error. */
  function RunVerdict(size: int, max: int, engine: L.LifecycleState, converted: Result<string, ConverterError>,
                      env: RunEnvironment, definitionId: string, jobId: string): (r: Result<string, EngineError>)
    ensures r.Success? <==>
              size < max && L.IsStarted(engine) && converted.Success? && env.jobInit.Returns? && env.save.Returns?
    ensures r.Success? ==> r.value == jobId
    ensures size >= max ==> r == Failure(MaxJobCountReached(definitionId))
    ensures r.Failure? && r.error.NotStarted? ==> size < max && r.error.state == L.GetState(engine)
    ensures size < max && !L.IsStarted(engine) ==> r == Failure(NotStarted(L.GetState(engine)))
    ensures size < max && L.IsStarted(engine) && converted.Failure? ==> r == Failure(ConversionFailed(converted.error))
    ensures size < max && L.IsStarted(engine) && converted.Success? && env.jobInit.Throws? ==>
              r == Failure(JobInitFailed(Some(env.jobInit.ex)))
    ensures size < max && L.IsStarted(engine) && converted.Success? && env.jobInit.Returns? && env.save.Throws? ==>
              r == Failure(StoreFailed(env.save.ex))
    ensures r.Failure? && r.error.StoreFailed? ==>
              size < max && L.IsStarted(engine) && converted.Success? && env.jobInit.Returns? && env.save == Throws(r.error.storeFailure)
  {
    if size >= max then Failure(MaxJobCountReached(definitionId))
    else if !L.IsStarted(engine) then Failure(NotStarted(L.GetState(engine)))
    else if converted.Failure? then Failure(ConversionFailed(converted.error))
    else if env.jobInit.Throws? then Failure(JobInitFailed(Some(env.jobInit.ex)))
    else if env.save.Throws? then Failure(StoreFailed(env.save.ex))
    else Success(jobId)
  }

  // ---------------------------------------------------------------- exit classification

  /** The watcher's classification as written: on normal completion it sets FINISHED only
      when an exit type is already present (the test is the inverse of its comment). */
  function WatchedExitType(prior: Option<ExitType>, outcome: Completion): Option<ExitType> {
    match outcome
    case Fault(_) => Some(Failed)
    case Normal => if prior.Some? then Some(Finished) else prior
  }

  /** What the comment asks for: FINISHED when the job set no exit type itself. */
  function IntendedExitType(prior: Option<ExitType>, outcome: Completion): (r: Option<ExitType>)
    ensures r.Some?
    ensures outcome.Fault? ==> r == Some(Failed)
    ensures outcome.Normal? && prior.Some? ==> r == prior
    ensures outcome.Normal? && prior.None? ==> r == Some(Finished)
  {
    match outcome
    case Fault(_) => Some(Failed)
    case Normal => if prior.None? then Some(Finished) else prior
  }

  /** stopJob's bookkeeping: MANUAL_STOP unless an exit type is set, and the stop time
      unless one is set. */
  function ManuallyStoppedStatus(s: Status, now: int): (r: Status)
    ensures r.exitType.Some?
    ensures s.exitType.None? ==> r.exitType == Some(ManualStop)
    ensures s.exitType.Some? ==> r.exitType == s.exitType
    ensures s.stopTimestamp == 0 ==> r.stopTimestamp == now
    ensures s.stopTimestamp != 0 ==> r.stopTimestamp == s.stopTimestamp
    ensures r.(exitType := s.exitType, stopTimestamp := s.stopTimestamp) == s
  {
    s.(exitType := if s.exitType.None? then Some(ManualStop) else s.exitType,
       stopTimestamp := if s.stopTimestamp == 0 then now else s.stopTimestamp)
  }

  /** As written, a job that returns normally without classifying itself keeps no exit
      type, and one stopped by hand is relabelled FINISHED once its body returns. */
  lemma AsWrittenWatcherMisclassifies(s: Status, now: int)
    requires s.exitType.None?
    ensures WatchedExitType(s.exitType, Normal) == None
    ensures WatchedExitType(ManuallyStoppedStatus(s, now).exitType, Normal) == Some(Finished)
  {
  }

  /** With the intended test, a manual stop survives the later natural completion, and a
      job that completes unclassified ends FINISHED. */
  lemma IntendedWatcherKeepsManualStop(s: Status, now: int)
    requires s.exitType.None?
    ensures IntendedExitType(s.exitType, Normal) == Some(Finished)
    ensures IntendedExitType(ManuallyStoppedStatus(s, now).exitType, Normal) == Some(ManualStop)
  {
  }

  lemma RemoveKeyShrinks(m: map<string, JobAndFuture>, k: string)
    ensures |m - {k}| <= |m|
    ensures k !in m ==> m - {k} == m
  {
    assert (m - {k}).Keys == m.Keys - {k};
    assert |m.Keys - {k}| <= |m.Keys| by {
      assert m.Keys - {k} <= m.Keys;
    }
  }

  /** Every entry is stored under its own job's run id (so distinct entries hold
      distinct jobs). */
  ghost predicate KeyedByRunId(m: map<string, JobAndFuture>) {
    forall k | k in m :: m[k].job.id == Some(k)
  }

  /** No two entries share a lifecycle, and none shares `own`. */
  ghost predicate LivesApart(m: map<string, JobAndFuture>, own: L.LifecycleService) {
    && (forall k | k in m :: m[k].job.life != own)
    && (forall k, k' | k in m && k' in m && k != k' :: m[k].job.life != m[k'].job.life)
  }

  lemma UpdateThenRemove(m: map<string, JobAndFuture>, k: string, e: JobAndFuture)
    ensures m[k := e] - {k} == m - {k}
  {
  }

  /** The roll-back after a failed save: putting a fresh run id and removing it again
      restores the registry exactly; for a run id already present it loses that entry. */
  lemma RollbackRestoresRegistry(m: map<string, JobAndFuture>, k: string, e: JobAndFuture)
    ensures k !in m ==> m[k := e] - {k} == m
    ensures k in m ==> m[k := e] - {k} == m - {k} && |m[k := e] - {k}| == |m| - 1
  {
    assert (m[k := e] - {k}).Keys == m.Keys - {k};
  }

  lemma KeyedByRunIdUpdate(m: map<string, JobAndFuture>, k: string, e: JobAndFuture)
    requires KeyedByRunId(m) && e.job.id == Some(k)
    ensures KeyedByRunId(m[k := e])
  {
  }

  lemma LivesApartUpdate(m: map<string, JobAndFuture>, k: string, e: JobAndFuture, own: L.LifecycleService)
    requires LivesApart(m, own) && e.job.life != own
    requires forall k' | k' in m && k' != k :: m[k'].job.life != e.job.life
    ensures LivesApart(m[k := e], own)
  {
  }

  lemma LivesApartRemove(m: map<string, JobAndFuture>, k: string, own: L.LifecycleService)
    requires LivesApart(m, own)
    ensures LivesApart(m - {k}, own)
  {
  }

  /** Lines 86-90 of doRunJob after conversion: the new job gets its run id and is
      initialised (building it first). */
  method InitializedJob(definition: JobDefinition, jobId: string, jobBuild: Outcome, jobInit: Outcome) returns (job: Job)
    ensures fresh(job) && fresh(job.life)
    ensures job.definition == definition && job.id == Some(jobId) && job.status == InitialStatus
    ensures job.life.Snapshot() == L.AfterInit(L.Fresh, jobBuild, jobInit)
    ensures job.life.Snapshot() ==
              if jobInit.Returns? then L.Service(L.Initialized, None) else L.Service(L.Failed, Some(jobInit.ex))
  {
    job := new Job(definition, Some(jobId));
    job.life.Init(jobBuild, jobInit);
  }

  // ---------------------------------------------------------------- the engine

  class AbstractJobEngine {
    /** The converter's type-tag table. */
    const jobTypes: map<string, string>
    const life: L.LifecycleService
    var maxRunningJobCount: Long
    var runningJobs: map<string, JobAndFuture>
    /** Every saveJob call made to the job store, in order. */
    ghost var storeCalls: seq<StoreCall>

    ghost function Jobs(): set<Job>
      reads this
    {
      set k | k in runningJobs :: runningJobs[k].job
    }

    ghost function JobLives(): set<L.LifecycleService>
      reads this
    {
      set k | k in runningJobs :: runningJobs[k].job.life
    }

    /** The objects stopJob(jobId) may change besides the engine itself. */
    ghost function EntryObjects(jobId: string): set<object>
      reads this
    {
      if jobId in runningJobs then {runningJobs[jobId].job, runningJobs[jobId].job.life} else {}
    }

    /** Each entry is stored under its job's run id, no two entries share a lifecycle and
        none shares the engine's; the bound is positive. */
    ghost predicate Valid()
      reads this
    {
      && maxRunningJobCount > 0
      && KeyedByRunId(runningJobs)
      && LivesApart(runningJobs, life)
    }

    constructor (jobTypes: map<string, string>)
      ensures Valid()
      ensures this.jobTypes == jobTypes && fresh(life) && life.Snapshot() == L.Fresh
      ensures runningJobs == map[] && maxRunningJobCount == LongMax && storeCalls == []
    {
      this.jobTypes := jobTypes;
      life := new L.LifecycleService();
      maxRunningJobCount := LongMax;
      runningJobs := map[];
      storeCalls := [];
    }

    method SetMaxRunningJobCount(n: Long)
      requires Valid()
      modifies this
      ensures Valid()
      ensures maxRunningJobCount == NormalizedJobCount(n)
      ensures runningJobs == old(runningJobs) && storeCalls == old(storeCalls)
    {
      maxRunningJobCount := if n <= 0 then LongMax else n;
    }

    /** What doRunJob(definition, jobId) did, given the collaborators' behaviour `env`. */
    twostate predicate RunEffect(definition: JobDefinition, jobId: string, env: RunEnvironment, new r: Result<string, EngineError>)
      reads this, life, Jobs(), JobLives()
    {
      && r == RunVerdict(|old(runningJobs)|, old(maxRunningJobCount), old(life.state),
                         ConvertJobDefinition(jobTypes, definition, env.instantiation), env, definition.id, jobId)
      && RegistryEffect(jobId, env.now, r)
      // a success registers a new, initialised job made from the definition
      && (r.Success? ==>
            && fresh(runningJobs[jobId].job) && fresh(runningJobs[jobId].job.life)
            && runningJobs[jobId].job.definition == definition
            && runningJobs[jobId].job.life.Snapshot() == L.Service(L.Initialized, None))
    }

    /** What doRunJob did to the registry, the store and the bound, by its answer `r`: a
        failure before the save changes nothing; a failed save removes `jobId` again; a
        success maps `jobId` to a submitted entry whose job has that run id and is stamped
        with the start time; only `jobId` changes, and the size bound is kept. */
    twostate predicate RegistryEffect(jobId: string, now: int, new r: Result<string, EngineError>)
      reads this, Jobs()
    {
      && maxRunningJobCount == old(maxRunningJobCount)
      && (r.Failure? && !r.error.StoreFailed? ==>
            runningJobs == old(runningJobs) && storeCalls == old(storeCalls))
      && (r.Failure? && r.error.StoreFailed? ==>
            runningJobs == old(runningJobs) - {jobId} && storeCalls == old(storeCalls) + [SaveJob(jobId, InitialStatus)])
      && (r.Success? ==>
            && r.value == jobId
            && jobId in runningJobs
            && runningJobs == old(runningJobs)[jobId := runningJobs[jobId]]
            && runningJobs[jobId].submitted
            && runningJobs[jobId].job.id == Some(jobId)
            && runningJobs[jobId].job.status == InitialStatus.(startTimestamp := now)
            && storeCalls == old(storeCalls) + [SaveJob(jobId, InitialStatus)])
      && (|old(runningJobs)| <= maxRunningJobCount ==> |runningJobs| <= maxRunningJobCount)
    }

    /** doRunJob: admit, construct, initialise, register and persist a job under `jobId`;
        a persistence failure rolls the registration back. */
    method DoRunJob(definition: JobDefinition, jobId: string, env: RunEnvironment) returns (r: Result<string, EngineError>)
      requires Valid()
      modifies this
      ensures Valid()
      ensures RunEffect(definition, jobId, env, r)
    {
      if |runningJobs| >= maxRunningJobCount {
        return Failure(MaxJobCountReached(definition.id));
      }
      if !L.IsStarted(life.state) {
        return Failure(NotStarted(L.GetState(life.state)));
      }
      var converted := ConvertJobDefinition(jobTypes, definition, env.instantiation);
      if converted.Failure? {
        return Failure(ConversionFailed(converted.error));
      }
      r := CreateAndPersist(definition, jobId, env);
    }

    /** doRunJob once its gates are passed and the definition converts: make and
        initialise the job, then register and save it. */
    method CreateAndPersist(definition: JobDefinition, jobId: string, env: RunEnvironment)
      returns (r: Result<string, EngineError>)
      requires Valid() && |runningJobs| < maxRunningJobCount && L.IsStarted(life.state)
      requires ConvertJobDefinition(jobTypes, definition, env.instantiation).Success?
      modifies this
      ensures Valid()
      ensures RunEffect(definition, jobId, env, r)
    {
      var job := InitializedJob(definition, jobId, env.jobBuild, env.jobInit);
      if !SS.IsInitialized(L.GetState(job.life.state)) {
        return Failure(JobInitFailed(job.life.failException));
      }
      // init succeeded, so only the save decides the answer; the job's lifecycle is not
      // touched again
      assert env.jobInit.Returns?;
      ghost var admitted, initialized := job, job.life.Snapshot();
      assert initialized == L.Service(L.Initialized, None);
      r := Persist(job, jobId, env);
      assert job.life.Snapshot() == initialized;
      assert r.Success? ==> runningJobs[jobId].job == admitted;
    }

    /** Register the initialised job, save it, and on success stamp and submit it; a
        failed save removes `jobId` from the registry again. */
    method Persist(job: Job, jobId: string, env: RunEnvironment) returns (r: Result<string, EngineError>)
      requires Valid()
      requires job !in Jobs() && job.life !in JobLives() && job.life != life
      requires job.id == Some(jobId) && job.status == InitialStatus && |runningJobs| < maxRunningJobCount
      modifies this, job
      ensures Valid()
      ensures RegistryEffect(jobId, env.now, r)
      ensures env.save.Throws? ==> r == Failure(StoreFailed(env.save.ex))
      ensures env.save.Returns? ==> r == Success(jobId) && runningJobs[jobId].job == job
      ensures unchanged(job.life)
    {
      ghost var before := runningJobs;
      Put(job, jobId);
      // saveJob, with the job as it stands after init
      storeCalls := storeCalls + [SaveJob(jobId, job.status)];
      if env.save.Throws? {
        UpdateThenRemove(before, jobId, JobAndFuture(job, false));
        Remove(jobId);
        return Failure(StoreFailed(env.save.ex));
      }
      Submit(job, jobId, env.now);
      return Success(jobId);
    }

    /** runningJobs.put(jobId, new JobAndFuture(job)): the job goes in without a future. */
    method Put(job: Job, jobId: string)
      requires Valid()
      requires job !in Jobs() && job.life !in JobLives() && job.life != life
      requires job.id == Some(jobId) && |runningJobs| < maxRunningJobCount
      modifies this
      ensures Valid()
      ensures maxRunningJobCount == old(maxRunningJobCount) && storeCalls == old(storeCalls)
      ensures runningJobs == old(runningJobs)[jobId := JobAndFuture(job, false)]
      ensures |runningJobs| <= maxRunningJobCount
    {
      var entry := JobAndFuture(job, false);
      LivesApartUpdate(runningJobs, jobId, entry, life);
      KeyedByRunIdUpdate(runningJobs, jobId, entry);
      ghost var before := runningJobs;
      runningJobs := runningJobs[jobId := entry];
      assert |runningJobs| <= |before| + 1;
    }

    /** runningJobs.remove(jobId): the roll-back after a failed save. */
    method Remove(jobId: string)
      requires Valid()
      modifies this
      ensures Valid()
      ensures maxRunningJobCount == old(maxRunningJobCount) && storeCalls == old(storeCalls)
      ensures runningJobs == old(runningJobs) - {jobId}
      ensures jobId !in old(runningJobs) ==> runningJobs == old(runningJobs)
      ensures |runningJobs| <= |old(runningJobs)|
    {
      LivesApartRemove(runningJobs, jobId, life);
      RemoveKeyShrinks(runningJobs, jobId);
      runningJobs := runningJobs - {jobId};
    }

    /** The tail of doRunJob: stamp the start time, then submitJob attaches the future of
        the job's body to its entry. */
    method Submit(job: Job, jobId: string, now: int)
      requires Valid() && jobId in runningJobs && runningJobs[jobId] == JobAndFuture(job, false)
      modifies this, job
      ensures Valid()
      ensures maxRunningJobCount == old(maxRunningJobCount) && storeCalls == old(storeCalls)
      ensures runningJobs == old(runningJobs)[jobId := JobAndFuture(job, true)]
      ensures |runningJobs| == |old(runningJobs)|
      ensures job.status == old(job.status).(startTimestamp := now)
    {
      job.status := job.status.(startTimestamp := now);
      var entry := JobAndFuture(job, true);
      LivesApartUpdate(runningJobs, jobId, entry, life);
      KeyedByRunIdUpdate(runningJobs, jobId, entry);
      ghost var before := runningJobs;
      runningJobs := runningJobs[jobId := entry];
      assert runningJobs.Keys == before.Keys;
    }

    /** runJob: the singleton check (as written, see ExistJobRunningWithDefinitionId),
        then doRunJob under a fresh run id. */
    method RunJob(definition: JobDefinition, singleton: bool, freshId: string, env: RunEnvironment)
      returns (r: Result<string, EngineError>)
      requires Valid()
      modifies this
      ensures Valid()
      ensures singleton && ExistJobRunningWithDefinitionId(old(runningJobs), definition.id) ==>
                r == Failure(SingletonViolation(definition.id))
                && runningJobs == old(runningJobs) && storeCalls == old(storeCalls)
      ensures !(singleton && ExistJobRunningWithDefinitionId(old(runningJobs), definition.id)) ==>
                RunEffect(definition, freshId, env, r)
    {
      if singleton && ExistJobRunningWithDefinitionId(runningJobs, definition.id) {
        return Failure(SingletonViolation(definition.id));
      }
      r := DoRunJob(definition, freshId, env);
    }

    /** runJob with the singleton check keyed by definition id, as evidently intended:
        while a job from the definition is registered, a singleton run is refused. */
    method RunJobSingletonByDefinition(definition: JobDefinition, singleton: bool, freshId: string, env: RunEnvironment)
      returns (r: Result<string, EngineError>)
      requires Valid()
      modifies this
      ensures Valid()
      ensures singleton && definition.id in LiveDefinitionIds(old(runningJobs)) ==>
                r == Failure(SingletonViolation(definition.id))
                && runningJobs == old(runningJobs) && storeCalls == old(storeCalls)
      ensures !(singleton && definition.id in LiveDefinitionIds(old(runningJobs))) ==>
                RunEffect(definition, freshId, env, r)
      ensures r.Success? ==> definition.id in LiveDefinitionIds(runningJobs)
    {
      if singleton && definition.id in LiveDefinitionIds(runningJobs) {
        return Failure(SingletonViolation(definition.id));
      }
      r := DoRunJob(definition, freshId, env);
      if r.Success? {
        assert runningJobs[freshId].job.definition.id == definition.id;
      }
    }

    /** Whether stopJob(jobId) acts: the engine is STARTED, the run id is registered and
        its job reports itself stoppable. */
    predicate StopJobActs(jobId: string)
      reads this, life, EntryObjects(jobId)
    {
      && L.IsStarted(life.state)
      && jobId in runningJobs
      && SS.IsStoppable(L.GetState(runningJobs[jobId].job.life.state))
    }

    /** What stopJob(jobId) did: nothing at all unless it acts; when it acts, the job's
        exit is classified and its stop time stamped, the job is stopped, only `jobId`
        leaves the registry and the new status is saved. */
    twostate predicate StopEffect(jobId: string, jobDoStop: Outcome, now: int, touched: set<object>)
      requires touched == old(EntryObjects(jobId))
      reads this, life, touched
    {
      && maxRunningJobCount == old(maxRunningJobCount)
      && |runningJobs| <= |old(runningJobs)|
      && (!old(StopJobActs(jobId)) ==>
            runningJobs == old(runningJobs) && storeCalls == old(storeCalls)
            && unchanged(touched))
      && (old(StopJobActs(jobId)) ==>
            var job := old(runningJobs[jobId].job);
            && runningJobs == old(runningJobs) - {jobId}
            && job.status == ManuallyStoppedStatus(old(job.status), now)
            && job.life.Snapshot() == L.AfterStop(old(job.life.Snapshot()), jobDoStop)
            && storeCalls == old(storeCalls) + [SaveJob(jobId, job.status)])
    }

    /** stopJob: classify the exit as a manual stop, stop the job, stamp the stop time,
        drop the entry and persist the status; a store failure is only logged. */
    method StopJob(jobId: string, jobDoStop: Outcome, now: int)
      requires Valid()
      modifies this, EntryObjects(jobId)
      ensures Valid()
      ensures StopEffect(jobId, jobDoStop, now, old(EntryObjects(jobId)))
    {
      if !L.IsStarted(life.state) {
        return;
      }
      if jobId !in runningJobs {
        // logged: no job with this id
        return;
      }
      var job := runningJobs[jobId].job;
      // the job's lifecycle is not the engine's own, so stopping it keeps the engine's state
      assert job.life != life;
      if SS.IsStoppable(L.GetState(job.life.state)) {
        if job.status.exitType.None? {
          job.status := job.status.(exitType := Some(ManualStop));
        }
        job.life.Stop(jobDoStop);
        if job.status.stopTimestamp == 0 {
          job.status := job.status.(stopTimestamp := now);
        }
        Remove(jobId);
        storeCalls := storeCalls + [SaveJob(jobId, job.status)];
      }
      // otherwise logged: the job is not in a stoppable state
    }

    /** The pool's task for a submitted entry: the job's own start(), with the job's hooks
        as parameters. The registry and the store are not touched. A job admitted by
        doRunJob is INITIALIZED, so a returning doStart leaves it STARTED, and from then on
        stopJob acts on it while the engine is STARTED. */
    method RunSubmitted(jobId: string, doBuild: Outcome, doInit: Outcome, doStart: Outcome, doStop: Outcome)
      requires Valid() && jobId in runningJobs && runningJobs[jobId].submitted
      modifies runningJobs[jobId].job.life
      ensures Valid()
      ensures runningJobs == old(runningJobs) && storeCalls == old(storeCalls)
      ensures runningJobs[jobId].job.life.Snapshot() ==
                L.AfterStart(old(runningJobs[jobId].job.life.Snapshot()), doBuild, doInit, doStart, doStop)
      ensures old(runningJobs[jobId].job.life.state) == L.Initialized && doStart.Returns? ==>
                runningJobs[jobId].job.life.state == L.Started
      ensures old(L.IsStarted(life.state) && runningJobs[jobId].job.life.state == L.Initialized) && doStart.Returns? ==>
                StopJobActs(jobId)
    {
      var job := runningJobs[jobId].job;
      assert job.life != life;
      job.life.Start(doBuild, doInit, doStart, doStop);
    }

    /** waitJob without the blocking: an unknown run id is an error, and so is an entry
        whose future is not attached yet. */
    function WaitJob(jobId: string): (r: Result<(), EngineError>)
      reads this
      ensures jobId !in runningJobs ==> r == Failure(NoSuchJob(jobId))
      ensures r.Success? <==> jobId in runningJobs && runningJobs[jobId].submitted
    {
      if jobId !in runningJobs then Failure(NoSuchJob(jobId))
      else if !runningJobs[jobId].submitted then Failure(TryLater)
      else Success(())
    }

    /** getJob: the registry first; on a miss the store's answer, with a store error read
        as "no such job". */
    function GetJob(jobId: string, stored: Result<Option<Job>, Exception>): (r: Option<Job>)
      reads this
      ensures jobId in runningJobs ==> r == Some(runningJobs[jobId].job)
      ensures jobId !in runningJobs && stored.Success? ==> r == stored.value
      ensures jobId !in runningJobs && stored.Failure? ==> r == None
    {
      if jobId in runningJobs then Some(runningJobs[jobId].job)
      else match stored
        case Success(job) => job
        case Failure(_) => None
    }

    /** The completion watcher, once the job's future completed with `outcome`: classify
        the exit (as written), then stop the job if it is still stoppable. The registry is
        left alone. */
    method CompleteJob(entry: JobAndFuture, outcome: Completion, jobDoStop: Outcome)
      requires Valid()
      modifies entry.job, entry.job.life
      ensures Valid()
      ensures runningJobs == old(runningJobs) && storeCalls == old(storeCalls)
      ensures entry.job.status == old(entry.job.status).(exitType := WatchedExitType(old(entry.job.status.exitType), outcome))
      ensures entry.job.life.Snapshot() ==
                if old(SS.IsStoppable(L.GetState(entry.job.life.state)))
                then L.AfterStop(old(entry.job.life.Snapshot()), jobDoStop)
                else old(entry.job.life.Snapshot())
    {
      var job := entry.job;
      match outcome {
        case Normal =>
          if job.status.exitType.Some? {
            job.status := job.status.(exitType := Some(Finished));
          }
        case Fault(_) =>
          // logged
          job.status := job.status.(exitType := Some(Failed));
      }
      if SS.IsStoppable(L.GetState(job.life.state)) {
        job.life.Stop(jobDoStop);
      }
    }

    /** The completion watcher with the intended classification. */
    method CompleteJobIntended(jobId: string, entry: JobAndFuture, outcome: Completion, jobDoStop: Outcome)
      requires Valid() && entry.job.id == Some(jobId)
      modifies this, entry.job, entry.job.life
      ensures Valid()
      ensures runningJobs == old(runningJobs) - {jobId}
      ensures maxRunningJobCount == old(maxRunningJobCount) && storeCalls == old(storeCalls)
      ensures entry.job.status == old(entry.job.status).(exitType := IntendedExitType(old(entry.job.status.exitType), outcome))
      ensures entry.job.life.Snapshot() ==
                if old(SS.IsStoppable(L.GetState(entry.job.life.state)))
                then L.AfterStop(old(entry.job.life.Snapshot()), jobDoStop)
                else old(entry.job.life.Snapshot())
    {
      var job := entry.job;
      job.status := job.status.(exitType := IntendedExitType(job.status.exitType, outcome));
      if SS.IsStoppable(L.GetState(job.life.state)) {
        job.life.Stop(jobDoStop);
      }
      // a finished run gives its slot back
      Remove(jobId);
    }

    /** The engine's doStop hook: stop() every registered job, in no particular order.
        The registry keeps all its entries. */
    method DoStop(jobDoStop: string -> Outcome)
      requires Valid()
      modifies JobLives()
      ensures Valid() && runningJobs == old(runningJobs)
      ensures forall k | k in runningJobs ::
                runningJobs[k].job.life.Snapshot() == L.AfterStop(old(runningJobs[k].job.life.Snapshot()), jobDoStop(k))
    {
      var pending := runningJobs.Keys;
      while pending != {}
        invariant pending <= runningJobs.Keys
        invariant forall k | k in runningJobs && k !in pending ::
                    runningJobs[k].job.life.Snapshot() == L.AfterStop(old(runningJobs[k].job.life.Snapshot()), jobDoStop(k))
        invariant forall k | k in pending ::
                    runningJobs[k].job.life.Snapshot() == old(runningJobs[k].job.life.Snapshot())
        decreases pending
      {
        var k :| k in pending;
        runningJobs[k].job.life.Stop(jobDoStop(k));
        pending := pending - {k};
      }
    }

    /** The engine's stop(): the lifecycle stop with doStop stopping every job. */
    method Stop(jobDoStop: string -> Outcome)
      requires Valid()
      modifies life, JobLives()
      ensures Valid()
      ensures life.Snapshot() == L.AfterStop(old(life.Snapshot()), Returns)
      ensures forall k | k in runningJobs ::
                runningJobs[k].job.life.Snapshot() ==
                  if L.StopIsNoop(old(life.state)) then old(runningJobs[k].job.life.Snapshot())
                  else L.AfterStop(old(runningJobs[k].job.life.Snapshot()), jobDoStop(k))
    {
      var proceed := life.BeginStop();
      if proceed {
        DoStop(jobDoStop);
        // the engine's doStop never throws: each job's stop() records its own failure
        life.EndStop(Returns);
      }
    }

    /** The engine's start(): its own hooks are all no-ops, so the cleanup stop() inside a
        failing start is never reached. */
    method Start()
      requires Valid()
      modifies life
      ensures Valid()
      ensures life.Snapshot() == L.AfterStart(old(life.Snapshot()), Returns, Returns, Returns, Returns)
    {
      life.Start(Returns, Returns, Returns, Returns);
    }

    /** The engine's shutdown(): its stop() stops every job, doShutdown is a no-op. */
    method Shutdown(jobDoStop: string -> Outcome)
      requires Valid()
      modifies life, JobLives()
      ensures Valid()
      ensures life.Snapshot() == L.AfterShutdown(old(life.Snapshot()), Returns, Returns)
      ensures forall k | k in runningJobs ::
                runningJobs[k].job.life.Snapshot() ==
                  if L.StopIsNoop(old(life.state)) then old(runningJobs[k].job.life.Snapshot())
                  else L.AfterStop(old(runningJobs[k].job.life.Snapshot()), jobDoStop(k))
    {
      if life.state == L.Shutdown || life.state == L.ShuttingDown {
        return;
      }
      Stop(jobDoStop);
      life.FinishShutdown(Returns);
    }
  }
}
