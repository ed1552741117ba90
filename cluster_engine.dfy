/** Cluster delegation (engine/src/main/java/zk/js/engine/cluster/AbstractClusterJobEngine.java):
    a job engine that asks a placement collaborator (ClusterJobManager) where a job runs and
    runs it locally only when that node is its own. The collaborator's answers are
    parameters, and every call made to it is recorded in a ghost trace. */
module ClusterEngines {
  import opened Wrappers
  import opened Jobs
  import opened JobEngines
  import L = Lifecycle

  /** A cluster node, known by its id (which may be null). */
  datatype Node = Node(id: Option<string>)

  /** assign's answer: the chosen node (possibly null) and the run id it picked. */
  datatype NodeAndJobId = NodeAndJobId(node: Option<Node>, jobId: string)

  /** The calls the engine makes to its ClusterJobManager. */
  datatype ManagerCall =
    | Assign(definition: JobDefinition, singleton: bool)
    | GetAssigner(jobId: string)
    | JobFinished(finishedId: string, node: Node, reAssign: bool)
    | StopJobOnNode(stoppedId: string, target: Node)

  datatype ClusterError =
    | Local(error: EngineError)
    | AssignmentFailed
    | NullTargetNode
    | NodeNotSet

  /** isMe: a null target raises a null-pointer error, an engine without a node raises an
      illegal-state error, and otherwise the node ids are compared (null equals null). */
  function IsMe(own: Option<Node>, target: Option<Node>): (r: Result<bool, ClusterError>)
    ensures target.None? <==> r == Failure(NullTargetNode)
    ensures target.Some? && own.None? <==> r == Failure(NodeNotSet)
    ensures r.Success? <==> target.Some? && own.Some?
    ensures r.Success? ==> (r.value <==> own.value.id == target.value.id)
  {
    if target.None? then Failure(NullTargetNode)
    else if own.None? then Failure(NodeNotSet)
    else Success(own.value.id == target.value.id)
  }

  /** Whether a node is "me" does not depend on the order of the comparison. */
  lemma IsMeSymmetric(a: Node, b: Node)
    ensures IsMe(Some(a), Some(b)) == IsMe(Some(b), Some(a))
  {
  }

  /** Whether a node is "me" depends on the node ids alone. */
  lemma IsMeById(own: Node, target: Node, other: Node)
    requires other.id == target.id
    ensures IsMe(Some(own), Some(target)) == IsMe(Some(own), Some(other))
    ensures IsMe(Some(own), Some(own)) == Success(true)
  {
  }

  /** A local engine answer as the cluster engine's answer. */
  function Lifted(r: Result<string, EngineError>): (c: Result<string, ClusterError>)
    ensures c.Success? <==> r.Success?
    ensures c.Success? ==> c.value == r.value
    ensures c.Failure? ==> c.error == Local(r.error)
  {
    match r
    case Success(id) => Success(id)
    case Failure(e) => Failure(Local(e))
  }

  /** The local answer inside a lifted one. */
  function Lowered(c: Result<string, ClusterError>): (r: Result<string, EngineError>)
    requires c.Success? || c.error.Local?
    ensures Lifted(r) == c
  {
    match c
    case Success(id) => Success(id)
    case Failure(e) => Failure(e.error)
  }

  class ClusterJobEngine {
    /** The single-node engine this one extends. */
    const base: AbstractJobEngine
    /** This node, or None when it was not set. */
    const node: Option<Node>
    /** Every call made to the ClusterJobManager, in order. */
    ghost var managerCalls: seq<ManagerCall>

    constructor (jobTypes: map<string, string>, node: Option<Node>)
      ensures fresh(base) && base.Valid() && base.runningJobs == map[] && base.storeCalls == []
      ensures base.jobTypes == jobTypes && base.maxRunningJobCount == LongMax
      ensures this.node == node && managerCalls == []
      ensures fresh(base.life) && base.life.Snapshot() == L.Fresh
    {
      base := new AbstractJobEngine(jobTypes);
      this.node := node;
      managerCalls := [];
    }

    /** runJob: ask the manager for a node; when it answers nothing the run fails, when
        it names another node that node's run id is returned and nothing here changes,
        and when it names this node the job runs here under that id, without the base
        engine's singleton check. */
    method RunJob(definition: JobDefinition, singleton: bool, assignment: Option<NodeAndJobId>, env: RunEnvironment)
      returns (r: Result<string, ClusterError>)
      requires base.Valid()
      modifies this, base
      ensures base.Valid()
      ensures managerCalls == old(managerCalls) + [Assign(definition, singleton)]
      ensures assignment.None? ==> r == Failure(AssignmentFailed) && unchanged(base)
      ensures assignment.Some? && IsMe(node, assignment.value.node).Failure? ==>
                r == Failure(IsMe(node, assignment.value.node).error) && unchanged(base)
      ensures assignment.Some? && IsMe(node, assignment.value.node) == Success(false) ==>
                r == Success(assignment.value.jobId) && unchanged(base)
      ensures assignment.Some? && IsMe(node, assignment.value.node) == Success(true) ==>
                && (r.Success? || r.error.Local?)
                && base.RunEffect(definition, assignment.value.jobId, env, Lowered(r))
    {
      managerCalls := managerCalls + [Assign(definition, singleton)];
      if assignment.None? {
        return Failure(AssignmentFailed);
      }
      var me := IsMe(node, assignment.value.node);
      if me.Failure? {
        return Failure(me.error);
      }
      if !me.value {
        // the run belongs to another node, which starts it
        return Success(assignment.value.jobId);
      }
      var local := base.DoRunJob(definition, assignment.value.jobId, env);
      r := Lifted(local);
    }

    /** stopJob: ask the manager which node runs `jobId`; on this node stop it locally and
        report it finished (even when the local stop did nothing), elsewhere forward the
        stop to that node exactly once and leave the local engine alone. */
    method StopJob(jobId: string, assigner: Option<Node>, jobDoStop: Outcome, now: int)
      returns (r: Result<(), ClusterError>)
      requires base.Valid()
      modifies this, base, base.EntryObjects(jobId)
      ensures base.Valid()
      ensures IsMe(node, assigner).Failure? ==>
                && r == Failure(IsMe(node, assigner).error)
                && managerCalls == old(managerCalls) + [GetAssigner(jobId)]
                && unchanged(base) && unchanged(old(base.EntryObjects(jobId)))
      ensures IsMe(node, assigner) == Success(true) ==>
                && r == Success(())
                && base.StopEffect(jobId, jobDoStop, now, old(base.EntryObjects(jobId)))
                && managerCalls == old(managerCalls) + [GetAssigner(jobId), JobFinished(jobId, assigner.value, false)]
      ensures IsMe(node, assigner) == Success(false) ==>
                && r == Success(())
                && managerCalls == old(managerCalls) + [GetAssigner(jobId), StopJobOnNode(jobId, assigner.value)]
                && unchanged(base) && unchanged(old(base.EntryObjects(jobId)))
    {
      // none of the objects the local stop may change is this engine itself
      assert this !in base.EntryObjects(jobId);
      managerCalls := managerCalls + [GetAssigner(jobId)];
      var me := IsMe(node, assigner);
      if me.Failure? {
        return Failure(me.error);
      }
      if me.value {
        ghost var calls := managerCalls;
        assert this !in base.EntryObjects(jobId);
        base.StopJob(jobId, jobDoStop, now);
        assert managerCalls == calls;
        managerCalls := managerCalls + [JobFinished(jobId, assigner.value, false)];
      } else {
        managerCalls := managerCalls + [StopJobOnNode(jobId, assigner.value)];
      }
      return Success(());
    }
  }

  /** How many times a trace forwards a stop: none exactly when no call in it is a
      stopJobOnNode, and all of its length exactly when every call is one. */
  function ForwardedStops(calls: seq<ManagerCall>): (n: nat)
    ensures n <= |calls|
    ensures n == 0 <==> forall i | 0 <= i < |calls| :: !calls[i].StopJobOnNode?
    ensures n == |calls| <==> forall i | 0 <= i < |calls| :: calls[i].StopJobOnNode?
  {
    if calls == [] then 0
    else (if calls[|calls| - 1].StopJobOnNode? then 1 else 0) + ForwardedStops(calls[..|calls| - 1])
  }

  lemma {:induction false} ForwardedStopsAppend(calls: seq<ManagerCall>, more: seq<ManagerCall>)
    ensures ForwardedStops(calls + more) == ForwardedStops(calls) + ForwardedStops(more)
    decreases |more|
  {
    if more == [] {
      assert calls + more == calls;
    } else {
      var last := |more| - 1;
      assert (calls + more)[..|calls + more| - 1] == calls + more[..last];
      ForwardedStopsAppend(calls, more[..last]);
    }
  }

  /** A remote stop forwards exactly once, and a local stop or a failed routing never. */
  lemma RemoteStopForwardsOnce(calls: seq<ManagerCall>, jobId: string, n: Node)
    ensures ForwardedStops(calls + [GetAssigner(jobId), StopJobOnNode(jobId, n)]) == ForwardedStops(calls) + 1
    ensures ForwardedStops(calls + [GetAssigner(jobId), JobFinished(jobId, n, false)]) == ForwardedStops(calls)
    ensures ForwardedStops(calls + [GetAssigner(jobId)]) == ForwardedStops(calls)
  {
    ForwardedStopsAppend(calls, [GetAssigner(jobId), StopJobOnNode(jobId, n)]);
    ForwardedStopsAppend(calls, [GetAssigner(jobId), JobFinished(jobId, n, false)]);
    ForwardedStopsAppend(calls, [GetAssigner(jobId)]);
    assert [GetAssigner(jobId), StopJobOnNode(jobId, n)][..1] == [GetAssigner(jobId)];
    assert [GetAssigner(jobId), JobFinished(jobId, n, false)][..1] == [GetAssigner(jobId)];
    assert [GetAssigner(jobId)][..0] == [];
  }
}
