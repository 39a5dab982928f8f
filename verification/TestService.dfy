/** Enqueueing as the service runs it, with nobody interfering: the registry, the channel and the
    counter of waiting tests change together or not at all. */
module TestServices {
  import opened Wrappers
  import opened Nodes
  import opened TestRegistries
  import opened TestPipeline

  datatype Lookup = Missing | Unusable | Ready

  datatype EnqueueError = NodeNotFound | NodeUnavailable | QueueFull

  class TestService {
    const registry: TestRegistry
    var channel: seq<Job>
    var queued: nat

    constructor ()
      ensures fresh(registry) && registry.View() == EMPTY && channel == [] && queued == 0
    {
      registry := new TestRegistry();
      channel, queued := [], 0;
    }

    /** A refusal, and above all a full queue, leaves no trace. */
    method EnqueueTestJob(node: NodeId, found: Lookup, freshId: OperationId)
      returns (r: Result<(OperationId, bool), EnqueueError>)
      requires freshId !in registry.operations
      modifies this, registry
      ensures r == if found.Missing? then Failure(NodeNotFound)
                   else if found.Unusable? then Failure(NodeUnavailable)
                   else if node in old(registry.pendingByNode) then Success((old(registry.pendingByNode)[node], false))
                   else if |old(channel)| >= TEST_QUEUE_CAPACITY then Failure(EnqueueError.QueueFull)
                   else Success((freshId, true))
      ensures if r == Success((freshId, true)) && node !in old(registry.pendingByNode)
              then && registry.View() == WithQueued(old(registry.View()), node, freshId)
                   && channel == old(channel) + [Job(freshId, node)] && queued == old(queued) + 1
              else registry.View() == old(registry.View()) && channel == old(channel) && queued == old(queued)
    {
      if found.Missing? { return Failure(NodeNotFound); }
      if found.Unusable? { return Failure(NodeUnavailable); }
      ghost var before := registry.View();
      var registration := registry.Queue(node, freshId);
      if registration.Existing? { return Success((registration.id, false)); }
      queued := queued + 1;
      if |channel| >= TEST_QUEUE_CAPACITY {
        queued := queued - 1;
        registry.RollbackQueued(node, freshId);
        RollbackUndoesQueueing(before, node, freshId);
        return Failure(EnqueueError.QueueFull);
      }
      channel := channel + [Job(freshId, node)];
      r := Success((freshId, true));
    }

    /** One turn of the scheduler's loop: `None` at a full queue, else whether the node is new. */
    method ScheduleOne(node: NodeId, found: map<NodeId, Lookup>, freshId: OperationId) returns (isNew: Option<bool>)
      requires freshId !in registry.operations
      modifies this, registry
      ensures isNew == if !IsReady(found, node) || node in old(registry.pendingByNode) then Some(false)
                       else if |old(channel)| >= TEST_QUEUE_CAPACITY then None else Some(true)
      ensures isNew == Some(true) ==>
                && registry.pendingByNode == old(registry.pendingByNode)[node := freshId]
                && registry.operations.Keys == old(registry.operations).Keys + {freshId}
                && channel == old(channel) + [Job(freshId, node)] && queued == old(queued) + 1
      ensures isNew != Some(true) ==>
                && registry.pendingByNode == old(registry.pendingByNode) && registry.operations == old(registry.operations)
                && channel == old(channel) && queued == old(queued)
    {
      var lookup := if node in found then found[node] else Missing;
      var wasPending := node in registry.pendingByNode;
      var r := EnqueueTestJob(node, lookup, freshId);
      isNew := if r == Failure(EnqueueError.QueueFull) then None else Some(r.Success? && !wasPending);
    }

    /** The scheduler's loop over its candidates: as many new tests as the queue has room for, in
        candidate order, and nothing else. */
    method ScheduleAutomaticTests(candidates: seq<NodeId>, found: map<NodeId, Lookup>, ids: seq<OperationId>)
      returns (scheduled: nat, ghost added: seq<Job>)
      requires |ids| == |candidates|
      requires forall i :: 0 <= i < |ids| ==> ids[i] !in registry.operations
      requires forall i, j :: 0 <= i < j < |ids| ==> ids[i] != ids[j]
      modifies this, registry
      ensures added == Take(NewJobs(candidates, ids, found, old(registry.pendingByNode).Keys, |candidates|), Room(old(channel)))
      ensures channel == old(channel) + added && scheduled == |added| && queued == old(queued) + scheduled
      ensures |old(channel)| <= TEST_QUEUE_CAPACITY ==> |channel| <= TEST_QUEUE_CAPACITY
      ensures forall j :: j in added ==> j.node in candidates && j.node !in old(registry.pendingByNode)
                                         && j.node in registry.pendingByNode && registry.pendingByNode[j.node] == j.op
      ensures forall n :: n in old(registry.pendingByNode) ==>
                            n in registry.pendingByNode && registry.pendingByNode[n] == old(registry.pendingByNode)[n]
    {
      scheduled, added := 0, [];
      ghost var before := registry.pendingByNode.Keys;
      for i := 0 to |candidates|
        invariant channel == old(channel) + added && scheduled == |added| && queued == old(queued) + scheduled
        invariant |added| <= Room(old(channel)) && added == NewJobs(candidates, ids, found, before, i)
        invariant registry.pendingByNode.Keys == before + ReadyBefore(candidates, found, i)
        invariant forall k :: i <= k < |ids| ==> ids[k] !in registry.operations
        invariant forall j :: j in added ==> j.node in candidates && j.node !in old(registry.pendingByNode)
                                             && j.node in registry.pendingByNode && registry.pendingByNode[j.node] == j.op
        invariant forall n :: n in old(registry.pendingByNode) ==>
                                n in registry.pendingByNode && registry.pendingByNode[n] == old(registry.pendingByNode)[n]
      {
        NextCandidate(candidates, ids, found, before, i);
        var isNew := ScheduleOne(candidates[i], found, ids[i]);
        if isNew.None? {
          FullAt(candidates, ids, found, before, i);
          return;
        }
        if isNew.value {
          scheduled := scheduled + 1;
          added := added + [Job(ids[i], candidates[i])];
        }
      }
    }
  }

  predicate IsReady(found: map<NodeId, Lookup>, n: NodeId) { n in found && found[n].Ready? }

  function ReadyBefore(candidates: seq<NodeId>, found: map<NodeId, Lookup>, k: nat): set<NodeId>
    requires k <= |candidates|
  {
    set n | n in candidates[..k] && IsReady(found, n)
  }

  /** A job for each of the first `k` candidates that is ready, not pending, and not listed further up. */
  function NewJobs(candidates: seq<NodeId>, ids: seq<OperationId>, found: map<NodeId, Lookup>, pending: set<NodeId>, k: nat)
    : seq<Job>
    requires k <= |candidates| == |ids|
  {
    if k == 0 then []
    else
      var n := candidates[k - 1];
      NewJobs(candidates, ids, found, pending, k - 1) +
      if IsReady(found, n) && n !in pending && n !in candidates[..k - 1] then [Job(ids[k - 1], n)] else []
  }

  function Room(channel: seq<Job>): nat {
    if |channel| < TEST_QUEUE_CAPACITY then TEST_QUEUE_CAPACITY - |channel| else 0
  }

  /** They are for exactly the ready nodes that were listed and not pending. */
  lemma {:induction false} NewJobsAreOpen(candidates: seq<NodeId>, ids: seq<OperationId>, found: map<NodeId, Lookup>,
                                          pending: set<NodeId>, k: nat, n: NodeId)
    requires k <= |candidates| == |ids|
    ensures (exists j :: j in NewJobs(candidates, ids, found, pending, k) && j.node == n) <==>
            n in candidates[..k] && IsReady(found, n) && n !in pending
  {
    if k > 0 {
      NewJobsAreOpen(candidates, ids, found, pending, k - 1, n);
      assert candidates[..k] == candidates[..k - 1] + [candidates[k - 1]];
      var jobs, last := NewJobs(candidates, ids, found, pending, k - 1), Job(ids[k - 1], candidates[k - 1]);
      assert last in jobs + [last];
      assert forall j :: j in jobs ==> j in NewJobs(candidates, ids, found, pending, k);
    }
  }

  /** What one more candidate changes. */
  lemma NextCandidate(candidates: seq<NodeId>, ids: seq<OperationId>, found: map<NodeId, Lookup>, pending: set<NodeId>, k: nat)
    requires k < |candidates| == |ids|
    ensures var n := candidates[k];
            && ReadyBefore(candidates, found, k + 1) == ReadyBefore(candidates, found, k) + (if IsReady(found, n) then {n} else {})
            && NewJobs(candidates, ids, found, pending, k + 1)
               == NewJobs(candidates, ids, found, pending, k) +
                  if IsReady(found, n) && n !in pending + ReadyBefore(candidates, found, k) then [Job(ids[k], n)] else []
  {
    assert candidates[..k + 1] == candidates[..k] + [candidates[k]];
  }

  lemma {:induction false} NewJobsGrow(candidates: seq<NodeId>, ids: seq<OperationId>, found: map<NodeId, Lookup>,
                                       pending: set<NodeId>, i: nat, k: nat)
    requires i <= k <= |candidates| == |ids|
    ensures NewJobs(candidates, ids, found, pending, i) <= NewJobs(candidates, ids, found, pending, k)
    decreases k
  {
    if i < k { NewJobsGrow(candidates, ids, found, pending, i, k - 1); }
  }

  /** Stopping at candidate `i` yields the first of all jobs. */
  lemma {:induction false} FullAt(candidates: seq<NodeId>, ids: seq<OperationId>, found: map<NodeId, Lookup>, pending: set<NodeId>, i: nat)
    requires i <= |candidates| == |ids|
    ensures var jobs := NewJobs(candidates, ids, found, pending, i);
            Take(NewJobs(candidates, ids, found, pending, |candidates|), |jobs|) == jobs
  {
    NewJobsGrow(candidates, ids, found, pending, i, |candidates|);
  }

  lemma RollbackUndoesQueueing(r: Registry, node: NodeId, op: OperationId)
    requires node !in r.pending && op !in r.operations
    ensures RolledBack(WithQueued(r, node, op), node, op) == r
  {
    assert (r.pending[node := op] - {node}).Keys == r.pending.Keys;
    assert (r.operations[op := Queued(node)] - {op}).Keys == r.operations.Keys;
  }
}
