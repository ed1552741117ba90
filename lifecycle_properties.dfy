/** What the lifecycle queries and each lifecycle call promise, stated over the
    transition functions of module Lifecycle. */
module LifecycleProperties {
  import opened Wrappers
  import SS = ServiceStates
  import opened Lifecycle

  // ---------------------------------------------------------------- queries

  /** The thirteen byte constants are distinct. */
  lemma CodesDistinct(s: LifecycleState, t: LifecycleState)
    ensures Code(s) == Code(t) ==> s == t
  {
  }

  /** getState() folds NEW, BUILT, STOPPED, SHUTTING_DOWN, SHUTDOWN and FAILED into
      STOPPED and keeps the other seven states apart. */
  lemma GetStateProjection(s: LifecycleState, t: LifecycleState)
    ensures GetState(s) == SS.Stopped <==> s in {New, Built, Stopped, ShuttingDown, Shutdown, Failed}
    ensures GetState(s) == GetState(t) && GetState(s) != SS.Stopped ==> s == t
  {
  }

  /** A job engine checks `getState().isStoppable()` and `getState().isInitialized()`:
      through the projection these pick out exactly the expected lifecycle states. */
  lemma ProjectedPredicates(s: LifecycleState)
    ensures SS.IsStoppable(GetState(s)) <==> s == Started || s == Suspended
    ensures SS.IsInitialized(GetState(s)) <==> s == Initialized
    ensures SS.IsStoppable(GetState(s)) ==> IsRunAllowed(s)
  {
  }

  /** isRunAllowed() is exactly the negation of isStoppingOrStopped(), and holds for
      the four running states STARTING to SUSPENDED. */
  lemma RunAllowedIsNotStoppingOrStopped(s: LifecycleState)
    ensures IsRunAllowed(s) == !IsStoppingOrStopped(s)
    ensures IsRunAllowed(s) <==> s in {Starting, Started, Suspending, Suspended}
  {
  }

  /** isStopped() is isStoppingOrStopped() without STOPPING; it also holds for
      INITIALIZING and INITIALIZED, which getState() does not report as STOPPED. */
  lemma StoppedQuery(s: LifecycleState)
    ensures IsStopped(s) <==> IsStoppingOrStopped(s) && s != Stopping
    ensures GetState(s) == SS.Stopped ==> IsStopped(s)
    ensures IsStopped(Initialized) && GetState(Initialized) == SS.Initialized
  {
  }

  /** init() is allowed in exactly the states that getState() reports as STOPPED. */
  lemma InitAllowedIsReportedStopped(s: LifecycleState)
    ensures InitAllowed(s) <==> GetState(s) == SS.Stopped
  {
  }

  // ---------------------------------------------------------------- build

  /** build() changes only NEW, always into BUILT, whatever doBuild does, and never
      records an exception. */
  lemma BuildEffect(s: Service, doBuild: Outcome)
    ensures s.state != New ==> AfterBuild(s, doBuild) == s
    ensures s.state == New ==> AfterBuild(s, doBuild).state == Built
    ensures AfterBuild(s, doBuild).failException == s.failException
    ensures AfterBuild(s, doBuild) == AfterBuild(s, Returns)
  {
  }

  // ---------------------------------------------------------------- init

  /** init() acts only when allowed; it then ends INITIALIZED, or FAILED with
      doInit's exception recorded. Otherwise nothing changes. */
  lemma InitEffect(s: Service, doBuild: Outcome, doInit: Outcome)
    ensures !InitAllowed(s.state) ==> AfterInit(s, doBuild, doInit) == s
    ensures InitAllowed(s.state) && doInit.Returns? ==>
              AfterInit(s, doBuild, doInit) == Service(Initialized, s.failException)
    ensures InitAllowed(s.state) && doInit.Throws? ==>
              AfterInit(s, doBuild, doInit) == Service(Failed, Some(doInit.ex))
  {
  }

  // ---------------------------------------------------------------- start

  /** start() is a no-op from STARTED and STARTING, stops at a failed init, ends
      STARTED when doStart returns, and otherwise ends FAILED with doStart's own
      exception: the failure of the cleanup stop() is discarded. */
  lemma StartEffect(s: Service, doBuild: Outcome, doInit: Outcome, doStart: Outcome, doStop: Outcome)
    ensures s.state == Started || s.state == Starting ==> AfterStart(s, doBuild, doInit, doStart, doStop) == s
    ensures s.state != Started && s.state != Starting && AfterInit(s, doBuild, doInit).state == Failed ==>
              AfterStart(s, doBuild, doInit, doStart, doStop) == AfterInit(s, doBuild, doInit)
    ensures s.state != Started && s.state != Starting && AfterInit(s, doBuild, doInit).state != Failed ==>
              AfterStart(s, doBuild, doInit, doStart, doStop) ==
                if doStart.Returns? then AfterInit(s, doBuild, doInit).(state := Started)
                else Service(Failed, Some(doStart.ex))
    ensures s.state != Starting ==> AfterStart(s, doBuild, doInit, doStart, doStop).state in {Started, Failed}
  {
  }

  /** With hooks that all return, start() reaches STARTED from every state but STARTING. */
  lemma QuietStartReachesStarted(s: Service)
    ensures s.state != Starting ==> AfterStart(s, Returns, Returns, Returns, Returns).state == Started
  {
  }

  // ---------------------------------------------------------------- stop

  /** stop() is a no-op from FAILED, STOPPING, STOPPED, SHUTTING_DOWN and SHUTDOWN; from
      every other state it ends STOPPED, or FAILED with doStop's exception. */
  lemma StopEffect(s: Service, doStop: Outcome)
    ensures StopIsNoop(s.state) ==> AfterStop(s, doStop) == s
    ensures !StopIsNoop(s.state) && doStop.Returns? ==> AfterStop(s, doStop) == s.(state := Stopped)
    ensures !StopIsNoop(s.state) && doStop.Throws? ==> AfterStop(s, doStop) == Service(Failed, Some(doStop.ex))
  {
  }

  /** Calling stop() twice has the effect of calling it once, whatever the second doStop would do. */
  lemma StopIdempotent(s: Service, first: Outcome, second: Outcome)
    ensures AfterStop(AfterStop(s, first), second) == AfterStop(s, first)
  {
  }

  // ---------------------------------------------------------------- suspend and resume

  /** suspend() is a no-op only from SUSPENDED and SUSPENDING; from every other state,
      NEW and STOPPED included, it ends SUSPENDED or FAILED. */
  lemma SuspendEffect(s: Service, doSuspend: Outcome)
    ensures s.state in {Suspended, Suspending} ==> AfterSuspend(s, doSuspend) == s
    ensures s.state !in {Suspended, Suspending} && doSuspend.Returns? ==>
              AfterSuspend(s, doSuspend) == s.(state := Suspended)
    ensures s.state !in {Suspended, Suspending} && doSuspend.Throws? ==>
              AfterSuspend(s, doSuspend) == Service(Failed, Some(doSuspend.ex))
    ensures AfterSuspend(Service(New, s.failException), doSuspend).state in {Suspended, Failed}
    ensures AfterSuspend(Service(Stopped, s.failException), doSuspend).state in {Suspended, Failed}
  {
  }

  /** resume() acts only from SUSPENDED, and then ends STARTED or FAILED. */
  lemma ResumeEffect(s: Service, doResume: Outcome)
    ensures s.state != Suspended ==> AfterResume(s, doResume) == s
    ensures s.state == Suspended && doResume.Returns? ==> AfterResume(s, doResume) == s.(state := Started)
    ensures s.state == Suspended && doResume.Throws? ==>
              AfterResume(s, doResume) == Service(Failed, Some(doResume.ex))
  {
  }

  // ---------------------------------------------------------------- shutdown

  /** shutdown() is a no-op from SHUTDOWN. Otherwise it stops, then ends SHUTDOWN, or
      FAILED with doShutdown's exception. A failing doStop is overwritten by SHUTDOWN
      in the state but stays recorded as the failException. */
  lemma ShutdownEffect(s: Service, doStop: Outcome, doShutdown: Outcome)
    ensures s.state == Shutdown ==> AfterShutdown(s, doStop, doShutdown) == s
    ensures s.state !in {Shutdown, ShuttingDown} && doShutdown.Returns? ==>
              AfterShutdown(s, doStop, doShutdown) == AfterStop(s, doStop).(state := Shutdown)
    ensures s.state !in {Shutdown, ShuttingDown} && doShutdown.Throws? ==>
              AfterShutdown(s, doStop, doShutdown) == Service(Failed, Some(doShutdown.ex))
    ensures !StopIsNoop(s.state) && doStop.Throws? && doShutdown.Returns? ==>
              AfterShutdown(s, doStop, doShutdown) == Service(Shutdown, Some(doStop.ex))
  {
  }

  // ---------------------------------------------------------------- SHUTTING_DOWN

  /** No lifecycle call ever enters SHUTTING_DOWN: a call can only end there by
      leaving a service that was already there untouched. */
  lemma NoCallEntersShuttingDown(s: Service, b: Outcome, i: Outcome, st: Outcome, sp: Outcome, h: Outcome)
    requires s.state != ShuttingDown
    ensures AfterBuild(s, b).state != ShuttingDown
    ensures AfterInit(s, b, i).state != ShuttingDown
    ensures AfterStart(s, b, i, st, sp).state != ShuttingDown
    ensures AfterStop(s, sp).state != ShuttingDown
    ensures AfterSuspend(s, h).state != ShuttingDown
    ensures AfterResume(s, h).state != ShuttingDown
    ensures AfterShutdown(s, sp, h).state != ShuttingDown
  {
  }
}
