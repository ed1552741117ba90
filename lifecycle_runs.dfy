/** Sequences of lifecycle calls: which states a service started as NEW can be left
    in, and which repeated calls have no further effect. */
module LifecycleRuns {
  import opened Wrappers
  import opened Lifecycle

  /** One public lifecycle call, with the outcomes of the hooks it may run. */
  datatype Call =
    | BuildCall(doBuild: Outcome)
    | InitCall(doBuild: Outcome, doInit: Outcome)
    | StartCall(doBuild: Outcome, doInit: Outcome, doStart: Outcome, doStop: Outcome)
    | StopCall(doStop: Outcome)
    | SuspendCall(doSuspend: Outcome)
    | ResumeCall(doResume: Outcome)
    | ShutdownCall(doStop: Outcome, doShutdown: Outcome)

  function Apply(s: Service, c: Call): Service {
    match c
    case BuildCall(b) => AfterBuild(s, b)
    case InitCall(b, i) => AfterInit(s, b, i)
    case StartCall(b, i, st, sp) => AfterStart(s, b, i, st, sp)
    case StopCall(sp) => AfterStop(s, sp)
    case SuspendCall(h) => AfterSuspend(s, h)
    case ResumeCall(h) => AfterResume(s, h)
    case ShutdownCall(sp, h) => AfterShutdown(s, sp, h)
  }

  /** The service after the calls, made one after another. */
  function Run(s: Service, calls: seq<Call>): Service
    decreases |calls|
  {
    if calls == [] then s else Run(Apply(s, calls[0]), calls[1..])
  }

  lemma {:induction false} RunAppend(s: Service, a: seq<Call>, b: seq<Call>)
    ensures Run(s, a + b) == Run(Run(s, a), b)
    decreases |a|
  {
    if a == [] {
      assert a + b == b;
    } else {
      assert (a + b)[0] == a[0];
      assert (a + b)[1..] == a[1..] + b;
      RunAppend(Apply(s, a[0]), a[1..], b);
    }
  }

  // ---------------------------------------------------------------- resting states

  /** The states a call can end in. INITIALIZING, STARTING, SUSPENDING and STOPPING
      are held only while a hook runs; SHUTTING_DOWN is never assigned at all. */
  predicate Resting(s: LifecycleState) {
    s in {New, Built, Initialized, Started, Suspended, Stopped, Shutdown, Failed}
  }

  lemma ApplyKeepsResting(s: Service, c: Call)
    requires Resting(s.state)
    ensures Resting(Apply(s, c).state)
  {
  }

  /** Whatever calls are made, a service built as NEW ends in a resting state, so in
      particular it is never seen in SHUTTING_DOWN. */
  lemma {:induction false} RunEndsResting(s: Service, calls: seq<Call>)
    requires Resting(s.state)
    ensures Resting(Run(s, calls).state)
    ensures Run(s, calls).state != ShuttingDown
    decreases |calls|
  {
    if calls != [] {
      ApplyKeepsResting(s, calls[0]);
      RunEndsResting(Apply(s, calls[0]), calls[1..]);
    }
  }

  lemma ShuttingDownUnreachable(calls: seq<Call>)
    ensures Run(Fresh, calls).state != ShuttingDown
  {
    RunEndsResting(Fresh, calls);
  }

  /** Every resting state is the end of some run from NEW. */
  lemma RestingStatesReachable(t: LifecycleState, ex: Exception)
    requires Resting(t)
    ensures exists calls :: Run(Fresh, calls).state == t
  {
    var calls: seq<Call>;
    match t {
      case New => calls := [];
      case Built => calls := [BuildCall(Returns)];
      case Initialized => calls := [InitCall(Returns, Returns)];
      case Started => calls := [StartCall(Returns, Returns, Returns, Returns)];
      case Suspended => calls := [SuspendCall(Returns)];
      case Stopped => calls := [StopCall(Returns)];
      case Shutdown => calls := [ShutdownCall(Returns, Returns)];
      case Failed => calls := [InitCall(Returns, Throws(ex))];
    }
    assert Run(Fresh, calls).state == t;
  }

  // ---------------------------------------------------------------- repeated calls

  predicate SameOperation(c1: Call, c2: Call) {
    || (c1.BuildCall? && c2.BuildCall?)
    || (c1.InitCall? && c2.InitCall?)
    || (c1.StartCall? && c2.StartCall?)
    || (c1.StopCall? && c2.StopCall?)
    || (c1.SuspendCall? && c2.SuspendCall?)
    || (c1.ResumeCall? && c2.ResumeCall?)
    || (c1.ShutdownCall? && c2.ShutdownCall?)
  }

  /** The first of two like calls left nothing to retry: build, stop and resume never
      leave anything, the others only when they ended FAILED (init, start, suspend and
      shutdown act again from FAILED). */
  predicate Settled(s: Service, c: Call) {
    Apply(s, c).state == Failed ==> c.BuildCall? || c.StopCall? || c.ResumeCall?
  }

  lemma SecondCallIsNoop(s: Service, c1: Call, c2: Call)
    requires SameOperation(c1, c2) && Settled(s, c1)
    ensures Apply(Apply(s, c1), c2) == Apply(s, c1)
  {
  }

  /** Anywhere in a run, a repeated call that found its first instance settled may be
      dropped without changing the outcome. */
  lemma RepeatedCallCollapses(s: Service, before: seq<Call>, c1: Call, c2: Call, after: seq<Call>)
    requires SameOperation(c1, c2) && Settled(Run(s, before), c1)
    ensures Run(s, before + [c1, c2] + after) == Run(s, before + [c1] + after)
  {
    var mid := Run(s, before);
    RunAppend(s, before + [c1, c2], after);
    RunAppend(s, before, [c1, c2]);
    RunAppend(s, before + [c1], after);
    RunAppend(s, before, [c1]);
    assert Run(mid, [c1, c2]) == Apply(Apply(mid, c1), c2) by {
      assert [c1, c2][1..] == [c2];
      assert Run(mid, [c1, c2]) == Run(Apply(mid, c1), [c2]);
      assert Run(Apply(mid, c1), [c2]) == Run(Apply(Apply(mid, c1), c2), []);
    }
    assert Run(mid, [c1]) == Apply(mid, c1) by {
      assert Run(mid, [c1]) == Run(Apply(mid, c1), []);
    }
    SecondCallIsNoop(mid, c1, c2);
  }
}
