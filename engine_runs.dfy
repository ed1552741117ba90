/** Runs of the single-node engine: sequences of its operations on one engine, the way
    a client and the pool interleave them (engine/src/main/java/zk/js/engine/AbstractJobEngine.java). */
module EngineRuns {
  import opened Wrappers
  import SS = ServiceStates
  import L = Lifecycle
  import opened Jobs
  import opened JobEngines

  /** What happens to an admitted run afterwards, as written: the pool starts the job and
      its doStart returns, the watcher sees the future complete normally and stops the
      job, and then a manual stop of the same run finds the job no longer stoppable. The
      registry keeps the run's entry throughout. */
  method FinishRunAsWritten(e: AbstractJobEngine, jobId: string, jobDoStop: Outcome, now: int)
    requires e.Valid() && jobId in e.runningJobs && e.runningJobs[jobId].submitted
    requires e.runningJobs[jobId].job.life.state == L.Initialized
    modifies e, e.runningJobs[jobId].job, e.runningJobs[jobId].job.life
    ensures e.Valid()
    ensures e.runningJobs == old(e.runningJobs) && e.maxRunningJobCount == old(e.maxRunningJobCount)
  {
    var entry := e.runningJobs[jobId];
    e.RunSubmitted(jobId, Returns, Returns, Returns, jobDoStop);
    assert entry.job.life.state == L.Started;
    e.CompleteJob(entry, Normal, jobDoStop);
    assert !SS.IsStoppable(L.GetState(entry.job.life.state));
    e.StopJob(jobId, jobDoStop, now);
  }

  /** The same afterwards with the watcher that gives the slot back: the run's entry is
      gone once its job has completed, and the later manual stop finds nothing to do. */
  method FinishRunReleasing(e: AbstractJobEngine, jobId: string, jobDoStop: Outcome, now: int)
    requires e.Valid() && jobId in e.runningJobs && e.runningJobs[jobId].submitted
    requires e.runningJobs[jobId].job.life.state == L.Initialized
    modifies e, e.runningJobs[jobId].job, e.runningJobs[jobId].job.life
    ensures e.Valid()
    ensures e.runningJobs == old(e.runningJobs) - {jobId} && e.maxRunningJobCount == old(e.maxRunningJobCount)
  {
    var entry := e.runningJobs[jobId];
    e.RunSubmitted(jobId, Returns, Returns, Returns, jobDoStop);
    e.CompleteJobIntended(jobId, entry, Normal, jobDoStop);
    assert jobId !in e.runningJobs;
    e.StopJob(jobId, jobDoStop, now);
  }

  /** As written, a finished run keeps its slot. With room for one job, a run that
      starts, returns normally and is then stopped by hand still occupies the registry:
      the watcher stops the job without removing its entry, and stopJob then finds the
      job STOPPED (or FAILED) and returns before its remove. The next run is refused
      for capacity. */
  method CompletedRunKeepsSlot(e: AbstractJobEngine, a: JobDefinition, b: JobDefinition,
                               idA: string, idB: string, env: RunEnvironment, jobDoStop: Outcome)
    returns (ra: Result<string, EngineError>, rb: Result<string, EngineError>)
    requires e.Valid() && e.maxRunningJobCount == 1 && e.runningJobs == map[]
    modifies e
    ensures ra.Success? ==> idA in e.runningJobs && rb == Failure(MaxJobCountReached(b.id))
  {
    ra := e.DoRunJob(a, idA, env);
    if ra.Success? {
      FinishRunAsWritten(e, idA, jobDoStop, env.now);
    }
    rb := e.DoRunJob(b, idB, env);
  }

  /** With the watcher that gives a finished run's slot back, the same sequence admits
      the next run: it is decided by the remaining gates alone, and it succeeds whenever
      its definition converts. */
  method ReleasedRunFreesSlot(e: AbstractJobEngine, a: JobDefinition, b: JobDefinition,
                              idA: string, idB: string, env: RunEnvironment, jobDoStop: Outcome)
    returns (ra: Result<string, EngineError>, rb: Result<string, EngineError>)
    requires e.Valid() && e.maxRunningJobCount == 1 && e.runningJobs == map[]
    modifies e
    ensures ra.Success? ==> rb != Failure(MaxJobCountReached(b.id))
    ensures ra.Success? && ConvertJobDefinition(e.jobTypes, b, env.instantiation).Success? ==>
              rb == Success(idB) && e.runningJobs.Keys == {idB}
  {
    ra := e.DoRunJob(a, idA, env);
    if ra.Success? {
      FinishRunReleasing(e, idA, jobDoStop, env.now);
    }
    rb := e.DoRunJob(b, idB, env);
  }
}
