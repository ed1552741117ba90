/** The eight-valued service state that lifecycle services report to their callers
    (engine/src/main/java/zk/js/engine/common/ServiceState.java). */
module ServiceStates {

  datatype ServiceState =
    | Initializing
    | Initialized
    | Starting
    | Started
    | Stopping
    | Stopped
    | Suspending
    | Suspended

  predicate IsStartable(s: ServiceState) {
    s == Initialized || s == Stopped || s == Suspended
  }

  predicate IsStoppable(s: ServiceState) {
    s == Started || s == Suspended
  }

  predicate IsSuspendable(s: ServiceState) {
    s == Started
  }

  predicate IsInitializing(s: ServiceState) { s == Initializing }
  predicate IsInitialized(s: ServiceState) { s == Initialized }
  predicate IsStarting(s: ServiceState) { s == Starting }
  predicate IsStarted(s: ServiceState) { s == Started }
  predicate IsStopping(s: ServiceState) { s == Stopping }
  predicate IsStopped(s: ServiceState) { s == Stopped }
  predicate IsSuspending(s: ServiceState) { s == Suspending }
  predicate IsSuspended(s: ServiceState) { s == Suspended }

  /** How many of the eight single-state predicates hold of `s`. */
  function SingleStateCount(s: ServiceState): nat {
    (if IsInitializing(s) then 1 else 0) + (if IsInitialized(s) then 1 else 0) +
    (if IsStarting(s) then 1 else 0) + (if IsStarted(s) then 1 else 0) +
    (if IsStopping(s) then 1 else 0) + (if IsStopped(s) then 1 else 0) +
    (if IsSuspending(s) then 1 else 0) + (if IsSuspended(s) then 1 else 0)
  }

  /** The composite predicates are unions of single-state predicates. */
  lemma StoppableIsStartedOrSuspended(s: ServiceState)
    ensures IsStoppable(s) <==> IsStarted(s) || IsSuspended(s)
  {
  }

  lemma StartableIsInitializedStoppedOrSuspended(s: ServiceState)
    ensures IsStartable(s) <==> IsInitialized(s) || IsStopped(s) || IsSuspended(s)
  {
  }

  /** Only a started service may be suspended, and such a service may also be stopped. */
  lemma SuspendableImpliesStoppable(s: ServiceState)
    ensures IsSuspendable(s) <==> IsStarted(s)
    ensures IsSuspendable(s) ==> IsStoppable(s)
    ensures IsSuspendable(s) ==> !IsStartable(s)
  {
  }

  /** SUSPENDED is the one state from which a service may be both started and stopped. */
  lemma OnlySuspendedStartableAndStoppable(s: ServiceState)
    ensures IsStartable(s) && IsStoppable(s) <==> s == Suspended
  {
  }

  /** Every state satisfies exactly one single-state predicate, and each predicate
      picks out exactly one state (no two are true together). */
  lemma SingleStatePredicatesPartition(s: ServiceState, t: ServiceState)
    ensures SingleStateCount(s) == 1
    ensures IsInitializing(s) && IsInitializing(t) ==> s == t
    ensures IsInitialized(s) && IsInitialized(t) ==> s == t
    ensures IsStarting(s) && IsStarting(t) ==> s == t
    ensures IsStarted(s) && IsStarted(t) ==> s == t
    ensures IsStopping(s) && IsStopping(t) ==> s == t
    ensures IsStopped(s) && IsStopped(t) ==> s == t
    ensures IsSuspending(s) && IsSuspending(t) ==> s == t
    ensures IsSuspended(s) && IsSuspended(t) ==> s == t
  {
  }
}
