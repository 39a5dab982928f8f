/** In-memory lifecycle and deduplication of test operations. */
module TestRegistries {
  import opened Wrappers
  import opened Nodes
  import opened Sorting

  type OperationId = nat

  datatype TestState =
    | Queued(node: NodeId)
    | Running(node: NodeId)
    | Succeeded(node: NodeId, testedAt: int)
    | Failed(node: NodeId, testedAt: int)
  {
    predicate InFlight() { Queued? || Running? }
  }

  datatype Registry = Registry(
    operations: map<OperationId, TestState>,
    pending: map<NodeId, OperationId>,
    observed: set<NodeId>)

  const EMPTY := Registry(map[], map[], {})

  function Finished(operations: map<OperationId, TestState>): set<OperationId> {
    set op | op in operations && !operations[op].InFlight()
  }

  function Known(r: Registry): set<NodeId> { r.pending.Keys + r.observed }

  function WithQueued(r: Registry, node: NodeId, op: OperationId): Registry {
    r.(pending := r.pending[node := op], operations := r.operations[op := Queued(node)])
  }

  function WithoutPending(r: Registry, node: NodeId, op: OperationId): Registry {
    if node in r.pending && r.pending[node] == op then r.(pending := r.pending - {node}) else r
  }

  function RolledBack(r: Registry, node: NodeId, op: OperationId): Registry {
    WithoutPending(r, node, op).(operations := r.operations - {op})
  }

  function WithRunning(r: Registry, node: NodeId, op: OperationId): Registry {
    r.(operations := r.operations[op := Running(node)])
  }

  /** `complete` before pruning. */
  function WithFinished(r: Registry, op: OperationId, state: TestState): Registry {
    WithoutPending(r, state.node, op).(observed := r.observed + {state.node}, operations := r.operations[op := state])
  }

  function Excess(count: nat, limit: nat): nat { if count > limit then count - limit else 0 }

  /** What pruning may remove: just enough finished operations, none newer than one it keeps.
      Ties are open, because the source sorts an unordered map with an unstable sort. */
  ghost predicate IsPruning(operations: map<OperationId, TestState>, limit: nat, removed: set<OperationId>) {
    && removed <= Finished(operations)
    && |removed| == Excess(|Finished(operations)|, limit)
    && forall x, y :: x in removed && y in Finished(operations) && y !in removed ==>
                        operations[x].testedAt <= operations[y].testedAt
  }

  function Retained(r: Registry, current: set<NodeId>): Registry { r.(observed := r.observed * current) }

  /** Pending entries and in-flight operations describe each other. */
  ghost predicate Consistent(r: Registry) {
    && (forall n :: n in r.pending ==>
          r.pending[n] in r.operations && r.operations[r.pending[n]].InFlight() && r.operations[r.pending[n]].node == n)
    && (forall op :: op in r.operations && r.operations[op].InFlight() ==>
          r.operations[op].node in r.pending && r.pending[r.operations[op].node] == op)
  }

  /** After a completion at most `limit` finished operations remain, no kept one is older than a
      removed one, and no unfinished one is touched. */
  lemma PruningKeepsNewest(operations: map<OperationId, TestState>, limit: nat, removed: set<OperationId>)
    requires IsPruning(operations, limit, removed)
    ensures Finished(operations - removed) == Finished(operations) - removed
    ensures |Finished(operations - removed)| <= limit
    ensures |Finished(operations)| <= limit ==> operations - removed == operations
    ensures forall op :: op in operations && operations[op].InFlight() ==> op in operations - removed
    ensures forall x, y :: x in removed && y in Finished(operations - removed) ==>
                             operations[x].testedAt <= operations[y].testedAt
  {
    var all := Finished(operations);
    assert Finished(operations - removed) == all - removed;
    assert all == removed + (all - removed);
    if |all| <= limit { assert removed == {}; }
  }

  lemma QueueingKeeps(r: Registry, node: NodeId, op: OperationId)
    requires Consistent(r) && node !in r.pending && op !in r.operations
    ensures var r' := WithQueued(r, node, op); Consistent(r') && Finished(r'.operations) == Finished(r.operations)
  {
  }

  lemma RollbackKeeps(r: Registry, node: NodeId, op: OperationId)
    requires Consistent(r) && node in r.pending && r.pending[node] == op
    ensures var r' := RolledBack(r, node, op); Consistent(r') && Finished(r'.operations) == Finished(r.operations)
  {
  }

  lemma RunningKeeps(r: Registry, node: NodeId, op: OperationId)
    requires Consistent(r) && node in r.pending && r.pending[node] == op
    ensures var r' := WithRunning(r, node, op); Consistent(r') && Finished(r'.operations) == Finished(r.operations)
  {
  }

  lemma FinishKeepsConsistent(r: Registry, op: OperationId, state: TestState)
    requires Consistent(r) && !state.InFlight() && state.node in r.pending && r.pending[state.node] == op
    ensures Consistent(WithFinished(r, op, state))
  {
  }

  lemma ForgettingKeepsConsistent(r: Registry, removed: set<OperationId>)
    requires Consistent(r) && removed <= Finished(r.operations)
    ensures Consistent(r.(operations := r.operations - removed))
  {
  }

  lemma FinishingKeeps(r: Registry, op: OperationId, state: TestState, limit: nat, removed: set<OperationId>)
    requires Consistent(r) && !state.InFlight() && state.node in r.pending && r.pending[state.node] == op
    requires IsPruning(WithFinished(r, op, state).operations, limit, removed)
    ensures var r' := WithFinished(r, op, state);
            var r'' := r'.(operations := r'.operations - removed);
            Consistent(r'') && |Finished(r''.operations)| <= limit
  {
    FinishKeepsConsistent(r, op, state);
    ForgettingKeepsConsistent(WithFinished(r, op, state), removed);
    PruningKeepsNewest(WithFinished(r, op, state).operations, limit, removed);
  }

  datatype QueueRegistration = Existing(id: OperationId) | New(id: OperationId)

  class TestRegistry {
    var operations: map<OperationId, TestState>
    var pendingByNode: map<NodeId, OperationId>
    var observedNodes: set<NodeId>

    ghost function View(): Registry
      reads this
    {
      Registry(operations, pendingByNode, observedNodes)
    }

    constructor ()
      ensures View() == EMPTY
    {
      operations, pendingByNode, observedNodes := map[], map[], {};
    }

    /** `fresh` is the random id a new registration would get. */
    method Queue(node: NodeId, freshId: OperationId) returns (r: QueueRegistration)
      modifies this
      ensures node in old(pendingByNode) ==> r == Existing(old(pendingByNode)[node]) && View() == old(View())
      ensures node !in old(pendingByNode) ==> r == New(freshId) && View() == WithQueued(old(View()), node, freshId)
    {
      if node in pendingByNode { return Existing(pendingByNode[node]); }
      pendingByNode := pendingByNode[node := freshId];
      operations := operations[freshId := Queued(node)];
      r := New(freshId);
    }

    method RollbackQueued(node: NodeId, op: OperationId)
      modifies this
      ensures View() == RolledBack(old(View()), node, op)
    {
      if node in pendingByNode && pendingByNode[node] == op { pendingByNode := pendingByNode - {node}; }
      operations := operations - {op};
    }

    method MarkRunning(op: OperationId, node: NodeId)
      modifies this
      ensures View() == WithRunning(old(View()), node, op)
    {
      operations := operations[op := Running(node)];
    }

    method State(op: OperationId) returns (r: Option<TestState>)
      ensures r == if op in operations then Some(operations[op]) else None
    {
      r := if op in operations then Some(operations[op]) else None;
    }

    method KnownNodes() returns (r: set<NodeId>)
      ensures forall n :: n in r <==> n in pendingByNode || n in observedNodes
    {
      r := pendingByNode.Keys + observedNodes;
    }

    method RetainObserved(current: set<NodeId>)
      modifies this
      ensures View() == Retained(old(View()), current)
    {
      observedNodes := observedNodes * current;
    }

    method Complete(op: OperationId, state: TestState, historyLimit: nat) returns (ghost removed: set<OperationId>)
      requires !state.InFlight()
      modifies this
      ensures IsPruning(WithFinished(old(View()), op, state).operations, historyLimit, removed)
      ensures var r := WithFinished(old(View()), op, state); View() == r.(operations := r.operations - removed)
    {
      if state.node in pendingByNode && pendingByNode[state.node] == op { pendingByNode := pendingByNode - {state.node}; }
      observedNodes := observedNodes + {state.node};
      operations := operations[op := state];
      var oldest := OldestExcess(operations, historyLimit);
      operations := operations - oldest;
      removed := oldest;
    }
  }

  /** An operation and its completion time, as collected for sorting. */
  datatype Entry = Entry(op: OperationId, testedAt: int)

  function ByTime(a: Entry, b: Entry): Ordering { Compare(a.testedAt, b.testedAt) }

  function OpsOf(entries: seq<Entry>): (r: set<OperationId>)
    ensures |r| <= |entries|
  {
    if entries == [] then {} else OpsOf(entries[..|entries| - 1]) + {entries[|entries| - 1].op}
  }

  lemma {:induction false} OpsOfMembers(entries: seq<Entry>, op: OperationId)
    ensures op in OpsOf(entries) <==> exists i :: 0 <= i < |entries| && entries[i].op == op
    decreases |entries|
  {
    if entries != [] {
      var front, last := entries[..|entries| - 1], entries[|entries| - 1];
      OpsOfMembers(front, op);
      if op in OpsOf(front) { var i :| 0 <= i < |front| && front[i].op == op; assert entries[i].op == op; }
      if op == last.op { assert entries[|entries| - 1].op == op; }
      if i :| 0 <= i < |entries| && entries[i].op == op { if i < |front| { assert front[i].op == op; } }
    }
  }

  /** Prefixes of a list without repeated operations have none either. */
  lemma {:induction false} PrefixCount(entries: seq<Entry>, k: nat)
    requires |OpsOf(entries)| == |entries| && k <= |entries|
    ensures |OpsOf(entries[..k])| == k
    decreases |entries|
  {
    if k < |entries| {
      var front := entries[..|entries| - 1];
      PrefixCount(front, k);
      assert front[..k] == entries[..k];
    } else {
      assert entries[..k] == entries;
    }
  }

  /** Every entry repeats what the table says. */
  predicate Faithful(entries: seq<Entry>, operations: map<OperationId, TestState>) {
    forall e :: e in entries ==>
                  e.op in operations && !operations[e.op].InFlight() && e.testedAt == operations[e.op].testedAt
  }

  /** The finished operations, each once, in some order. */
  method Collect(operations: map<OperationId, TestState>) returns (entries: seq<Entry>)
    ensures OpsOf(entries) == Finished(operations) && |OpsOf(entries)| == |entries|
    ensures Faithful(entries, operations)
  {
    var rest := Finished(operations);
    entries := [];
    while rest != {}
      invariant rest <= Finished(operations)
      invariant OpsOf(entries) == Finished(operations) - rest && |OpsOf(entries)| == |entries|
      invariant Faithful(entries, operations)
      decreases |rest|
    {
      var op :| op in rest;
      ghost var before := entries;
      entries := entries + [Entry(op, operations[op].testedAt)];
      rest := rest - {op};
      assert entries[..|entries| - 1] == before;
    }
  }

  lemma ByTimeIsTotal()
    ensures IsTotalOrder(ByTime)
  {
  }

  lemma {:induction false} SameOps(xs: seq<Entry>, ys: seq<Entry>)
    requires multiset(xs) == multiset(ys)
    ensures OpsOf(xs) == OpsOf(ys)
  {
    forall op ensures op in OpsOf(xs) <==> op in OpsOf(ys) {
      OpsOfMembers(xs, op);
      OpsOfMembers(ys, op);
      if i :| 0 <= i < |xs| && xs[i].op == op { assert xs[i] in multiset(ys); }
      if i :| 0 <= i < |ys| && ys[i].op == op { assert ys[i] in multiset(xs); }
    }
  }

  lemma PrefixMembers(entries: seq<Entry>, k: nat, op: OperationId)
    requires k <= |entries|
    ensures op in OpsOf(entries[..k]) <==> exists i :: 0 <= i < k && entries[i].op == op
  {
    OpsOfMembers(entries[..k], op);
    if op in OpsOf(entries[..k]) {
      var i :| 0 <= i < k && entries[..k][i].op == op;
      assert entries[i].op == op;
    }
    if i :| 0 <= i < k && entries[i].op == op { assert entries[..k][i].op == op; }
  }

  /** In a time-sorted list nothing in front is newer than anything behind. */
  lemma {:induction false} FrontIsNotNewer(sorted: seq<Entry>, operations: map<OperationId, TestState>, k: nat, x: OperationId, y: OperationId)
    requires Sorted(ByTime, sorted) && Faithful(sorted, operations) && k <= |sorted|
    requires x in OpsOf(sorted[..k]) && y in OpsOf(sorted) && y !in OpsOf(sorted[..k])
    ensures x in Finished(operations) && y in Finished(operations) && operations[x].testedAt <= operations[y].testedAt
  {
    PrefixMembers(sorted, k, x);
    PrefixMembers(sorted, k, y);
    OpsOfMembers(sorted, y);
    var i :| 0 <= i < k && sorted[i].op == x;
    var j :| 0 <= j < |sorted| && sorted[j].op == y;
    assert sorted[i] in sorted && sorted[j] in sorted;
    assert ByTime(sorted[i], sorted[j]) != Greater;
  }

  lemma FrontIsFinished(sorted: seq<Entry>, operations: map<OperationId, TestState>, k: nat)
    requires Faithful(sorted, operations) && k <= |sorted|
    ensures OpsOf(sorted[..k]) <= Finished(operations)
  {
    forall x | x in OpsOf(sorted[..k]) ensures x in Finished(operations) {
      PrefixMembers(sorted, k, x);
      var i :| 0 <= i < k && sorted[i].op == x;
      assert sorted[i] in sorted;
    }
  }

  /** Cutting the front off a time-sorted list is a pruning. */
  lemma {:induction false} FrontIsOldest(sorted: seq<Entry>, operations: map<OperationId, TestState>, limit: nat)
    requires Sorted(ByTime, sorted) && Faithful(sorted, operations)
    requires OpsOf(sorted) == Finished(operations) && |OpsOf(sorted)| == |sorted|
    ensures IsPruning(operations, limit, OpsOf(sorted[..Excess(|sorted|, limit)]))
  {
    var k := Excess(|sorted|, limit);
    var removed := OpsOf(sorted[..k]);
    PrefixCount(sorted, k);
    FrontIsFinished(sorted, operations, k);
    forall x, y | x in removed && y in Finished(operations) && y !in removed
      ensures operations[x].testedAt <= operations[y].testedAt
    {
      FrontIsNotNewer(sorted, operations, k, x, y);
    }
  }

  /** `prune_completed`: collect, sort by time, take the excess from the front. */
  method OldestExcess(operations: map<OperationId, TestState>, limit: nat) returns (removed: set<OperationId>)
    ensures IsPruning(operations, limit, removed)
  {
    var completed := Collect(operations);
    var sorted := SortBy(ByTime, completed);
    SortByIsPermutation(ByTime, completed);
    ByTimeIsTotal();
    SortByIsSorted(ByTime, completed);
    SameOps(completed, sorted);
    assert |multiset(sorted)| == |multiset(completed)|;
    assert Faithful(sorted, operations) by { forall e | e in sorted ensures e in completed { assert e in multiset(sorted); } }
    FrontIsOldest(sorted, operations, limit);
    removed := OpsOf(sorted[..Excess(|sorted|, limit)]);
  }
}
