/** The generic lifecycle state machine every managed component reuses
    (engine/src/main/java/zk/js/engine/common/BaseLifecycleService.java).

    The overridable hooks doBuild, doInit, doStart, doStop, doSuspend, doResume
    and doShutdown are code outside this model: each lifecycle call receives, as a
    parameter, the Outcome of every hook it may run. A public call runs each hook at
    most once, so one Outcome per hook and per call loses nothing. */
module Lifecycle {
  import opened Wrappers
  import SS = ServiceStates

  /** The thirteen values of the `state` byte. */
  datatype LifecycleState =
    | New
    | Built
    | Initializing
    | Initialized
    | Starting
    | Started
    | Suspending
    | Suspended
    | Stopping
    | Stopped
    | ShuttingDown
    | Shutdown
    | Failed

  /** The byte constant the source stores for each state; the guards below compare these. */
  function Code(s: LifecycleState): (c: nat)
    ensures c < 13
  {
    match s
    case New => 0
    case Built => 1
    case Initializing => 2
    case Initialized => 3
    case Starting => 4
    case Started => 5
    case Suspending => 6
    case Suspended => 7
    case Stopping => 8
    case Stopped => 9
    case ShuttingDown => 10
    case Shutdown => 11
    case Failed => 12
  }

  // ---------------------------------------------------------------- queries

  /** The projection onto the public eight-valued enum; every state without a
      counterpart of its own reads as STOPPED. */
  function GetState(s: LifecycleState): SS.ServiceState {
    match s
    case Initializing => SS.Initializing
    case Initialized => SS.Initialized
    case Starting => SS.Starting
    case Started => SS.Started
    case Suspending => SS.Suspending
    case Suspended => SS.Suspended
    case Stopping => SS.Stopping
    case _ => SS.Stopped
  }

  predicate IsNew(s: LifecycleState) { s == New }
  predicate IsBuild(s: LifecycleState) { s == Built }
  predicate IsInit(s: LifecycleState) { s == Initialized }
  predicate IsStarted(s: LifecycleState) { s == Started }
  predicate IsStarting(s: LifecycleState) { s == Starting }
  predicate IsStopping(s: LifecycleState) { s == Stopping }
  predicate IsStopped(s: LifecycleState) { Code(s) < Code(Starting) || Code(s) >= Code(Stopped) }
  predicate IsSuspending(s: LifecycleState) { s == Suspending }
  predicate IsSuspended(s: LifecycleState) { s == Suspended }
  predicate IsRunAllowed(s: LifecycleState) { Code(s) >= Code(Starting) && Code(s) <= Code(Suspended) }
  predicate IsShutdown(s: LifecycleState) { s == Shutdown }
  predicate IsStoppingOrStopped(s: LifecycleState) { Code(s) < Code(Starting) || Code(s) > Code(Suspended) }
  predicate IsSuspendingOrSuspended(s: LifecycleState) { s == Suspending || s == Suspended }
  predicate IsStartingOrStarted(s: LifecycleState) { s == Starting || s == Started }

  // ---------------------------------------------------------------- guards

  /** init() acts only from NEW or BUILT, or from STOPPED and later (re-initialisation). */
  predicate InitAllowed(s: LifecycleState) {
    Code(s) <= Code(Built) || Code(s) >= Code(Stopped)
  }

  /** The states from which stop() returns at once. */
  predicate StopIsNoop(s: LifecycleState) {
    s == Failed || s == Stopped || s == ShuttingDown || s == Shutdown || s == Stopping
  }

  // ---------------------------------------------------------------- transitions

  /** The observable part of a lifecycle service: its state and its failException. */
  datatype Service = Service(state: LifecycleState, failException: Option<Exception>)

  /** A service as constructed. */
  const Fresh: Service := Service(New, None)

  /** fail(ex): record the exception and enter FAILED (the doFail hook is a no-op here). */
  function AfterFail(s: Service, ex: Exception): Service {
    Service(Failed, Some(ex))
  }

  /** The end of every guarded hook call: `target` if the hook returned, FAILED if it threw. */
  function Settle(s: Service, hook: Outcome, target: LifecycleState): Service {
    match hook
    case Returns => s.(state := target)
    case Throws(ex) => AfterFail(s, ex)
  }

  /** build(): a failing doBuild is handed to doFail only, so BUILT is reached regardless. */
  function AfterBuild(s: Service, doBuild: Outcome): Service {
    if s.state == New then s.(state := Built) else s
  }

  function AfterInit(s: Service, doBuild: Outcome, doInit: Outcome): Service {
    if InitAllowed(s.state) then
      Settle(AfterBuild(s, doBuild).(state := Initializing), doInit, Initialized)
    else
      s
  }

  function AfterStop(s: Service, doStop: Outcome): Service {
    if StopIsNoop(s.state) then s else Settle(s.(state := Stopping), doStop, Stopped)
  }

  /** start(): a failing doStart first runs stop() as cleanup, then fails with doStart's exception. */
  function AfterStart(s: Service, doBuild: Outcome, doInit: Outcome, doStart: Outcome, doStop: Outcome): Service {
    if s.state == Started || s.state == Starting then
      s
    else
      var i := AfterInit(s, doBuild, doInit);
      if i.state == Failed then
        i
      else
        match doStart
        case Returns => i.(state := Started)
        case Throws(ex) => AfterFail(AfterStop(i.(state := Starting), doStop), ex)
  }

  function AfterSuspend(s: Service, doSuspend: Outcome): Service {
    if s.state == Suspended || s.state == Suspending then s
    else Settle(s.(state := Suspending), doSuspend, Suspended)
  }

  function AfterResume(s: Service, doResume: Outcome): Service {
    if s.state != Suspended then s
    else Settle(s.(state := Starting), doResume, Started)
  }

  /** The tail of shutdown() after its stop(): mark SHUTDOWN, then run doShutdown. */
  function AfterShutdownHook(s: Service, doShutdown: Outcome): Service {
    Settle(s.(state := Shutdown), doShutdown, Shutdown)
  }

  function AfterShutdown(s: Service, doStop: Outcome, doShutdown: Outcome): Service {
    if s.state == Shutdown || s.state == ShuttingDown then s
    else AfterShutdownHook(AfterStop(s, doStop), doShutdown)
  }

  // ---------------------------------------------------------------- the service object

  class LifecycleService {
    var state: LifecycleState
    var failException: Option<Exception>

    function Snapshot(): Service
      reads this
    {
      Service(state, failException)
    }

    constructor ()
      ensures Snapshot() == Fresh
    {
      state := New;
      failException := None;
    }

    method Fail(ex: Exception)
      modifies this
      ensures Snapshot() == AfterFail(old(Snapshot()), ex)
    {
      failException := Some(ex);
      state := Failed;
    }

    method Build(doBuild: Outcome)
      modifies this
      ensures Snapshot() == AfterBuild(old(Snapshot()), doBuild)
    {
      if state == New {
        // a failure of doBuild goes to the doFail hook, not to Fail: the state is not FAILED
        state := Built;
      }
    }

    method Init(doBuild: Outcome, doInit: Outcome)
      modifies this
      ensures Snapshot() == AfterInit(old(Snapshot()), doBuild, doInit)
    {
      if InitAllowed(state) {
        Build(doBuild);
        state := Initializing;
        match doInit {
          case Returns => state := Initialized;
          case Throws(ex) => Fail(ex);
        }
      }
    }

    method Start(doBuild: Outcome, doInit: Outcome, doStart: Outcome, doStop: Outcome)
      modifies this
      ensures Snapshot() == AfterStart(old(Snapshot()), doBuild, doInit, doStart, doStop)
    {
      if state == Started || state == Starting {
        return;
      }
      Init(doBuild, doInit);
      if state == Failed {
        return;
      }
      state := Starting;
      match doStart {
        case Returns =>
          state := Started;
        case Throws(ex) =>
          // cleanup: stop() records a failure of its own and never throws
          Stop(doStop);
          Fail(ex);
      }
    }

    /** The part of stop() before its hook: returns whether stop() goes on. */
    method BeginStop() returns (proceed: bool)
      modifies this
      ensures proceed == !StopIsNoop(old(state))
      ensures Snapshot() == if proceed then old(Snapshot()).(state := Stopping) else old(Snapshot())
    {
      if StopIsNoop(state) {
        return false;
      }
      state := Stopping;
      return true;
    }

    /** The part of stop() after its hook. */
    method EndStop(doStop: Outcome)
      requires state == Stopping
      modifies this
      ensures Snapshot() == Settle(old(Snapshot()), doStop, Stopped)
    {
      match doStop {
        case Returns => state := Stopped;
        case Throws(ex) => Fail(ex);
      }
    }

    method Stop(doStop: Outcome)
      modifies this
      ensures Snapshot() == AfterStop(old(Snapshot()), doStop)
    {
      var proceed := BeginStop();
      if proceed {
        EndStop(doStop);
      }
    }

    method Suspend(doSuspend: Outcome)
      modifies this
      ensures Snapshot() == AfterSuspend(old(Snapshot()), doSuspend)
    {
      if state == Suspended || state == Suspending {
        return;
      }
      state := Suspending;
      match doSuspend {
        case Returns => state := Suspended;
        case Throws(ex) => Fail(ex);
      }
    }

    method Resume(doResume: Outcome)
      modifies this
      ensures Snapshot() == AfterResume(old(Snapshot()), doResume)
    {
      if state != Suspended {
        return;
      }
      state := Starting;
      match doResume {
        case Returns => state := Started;
        case Throws(ex) => Fail(ex);
      }
    }

    /** The part of shutdown() after its stop(). */
    method FinishShutdown(doShutdown: Outcome)
      modifies this
      ensures Snapshot() == AfterShutdownHook(old(Snapshot()), doShutdown)
    {
      state := LifecycleState.Shutdown;
      match doShutdown {
        case Returns => state := LifecycleState.Shutdown;
        case Throws(ex) => Fail(ex);
      }
    }

    method Shutdown(doStop: Outcome, doShutdown: Outcome)
      modifies this
      ensures Snapshot() == AfterShutdown(old(Snapshot()), doStop, doShutdown)
    {
      if state == LifecycleState.Shutdown || state == ShuttingDown {
        return;
      }
      Stop(doStop);
      FinishShutdown(doShutdown);
    }
  }
}
