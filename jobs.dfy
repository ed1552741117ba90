/** Jobs: the unit of work an engine runs (engine/src/main/java/zk/js/engine/job/Job.java),
    its status record, its definition, and the type-tag lookup of the job converter
    (engine/src/main/java/zk/js/engine/job/DefaultJobConverter.java). */
module Jobs {
  import opened Wrappers
  import SS = ServiceStates
  import L = Lifecycle

  datatype ExitType = Finished | ManualStop | Failed

  /** Timestamps are milliseconds, 0 meaning "not set"; extra-info values are opaque and
      written as strings here. */
  datatype Status = Status(
    startTimestamp: int,
    stopTimestamp: int,
    serviceState: Option<SS.ServiceState>,
    exitType: Option<ExitType>,
    extraInfo: map<string, string>)

  /** The status of a job as constructed: nothing set. */
  const InitialStatus: Status := Status(0, 0, None, None, map[])

  /** A declarative job definition: its id, its type tag and its JSON configuration. */
  datatype JobDefinition = JobDefinition(id: string, jobType: string, jsonConf: string)

  /** A job is a lifecycle service of its own, with a run id (None for a job the engine
      has not taken), the definition it was made from and a mutable status. */
  class Job {
    /** Fixed when the job is made: the engine gives a job its run id right after
        conversion and never changes it. */
    const id: Option<string>
    const definition: JobDefinition
    var status: Status
    const life: L.LifecycleService

    constructor (definition: JobDefinition, id: Option<string>)
      ensures this.definition == definition && this.id == id
      ensures status == InitialStatus
      ensures fresh(life) && life.Snapshot() == L.Fresh
    {
      this.definition := definition;
      this.id := id;
      status := InitialStatus;
      life := new L.LifecycleService();
    }
  }

  datatype ConverterError =
    | UnsupportedJobType(jobType: string)
    | InstantiationFailed(className: string, cause: Exception)

  /** convertJobDefinition: look the definition's type tag up in the configured
      tag-to-class table; `instantiation` is what loading and constructing that class did.
      On success the result is the class to instantiate. */
  function ConvertJobDefinition(jobTypes: map<string, string>, definition: JobDefinition, instantiation: Outcome)
    : (r: Result<string, ConverterError>)
    ensures r == Failure(UnsupportedJobType(definition.jobType)) <==> definition.jobType !in jobTypes
    ensures r.Success? <==> definition.jobType in jobTypes && instantiation.Returns?
    ensures r.Success? ==> r.value == jobTypes[definition.jobType]
    ensures r.Failure? && definition.jobType in jobTypes ==>
              r == Failure(InstantiationFailed(jobTypes[definition.jobType], instantiation.ex))
  {
    if definition.jobType !in jobTypes then
      Failure(UnsupportedJobType(definition.jobType))
    else
      var className := jobTypes[definition.jobType];
      match instantiation
      case Returns => Success(className)
      case Throws(ex) => Failure(InstantiationFailed(className, ex))
  }
}
