/** What every interleaving of the test pipeline promises. */
module PipelineTheorems {
  import opened Wrappers
  import opened Nodes
  import opened TestRegistries
  import opened TestPipeline
  import opened PipelineInvariants

  /** After every run, `queued_tests` and `running_tests` are exact, stay within the queue and the
      parallelism limit, and the next decrement, whichever it is, finds a positive counter. */
  lemma {:induction false} CountersAreExact(maxParallel: nat, es: seq<Event>, next: Event)
    requires IsRun(Init(maxParallel), es) && Enabled(Final(Init(maxParallel), es), next)
    ensures var s := Final(Init(maxParallel), es);
            && s.running <= s.permits <= maxParallel
            && s.queued <= TEST_QUEUE_CAPACITY + 2
            && (next.LeaveQueue? || next.CountDown? ==> s.queued > 0)
            && (next.CountOff? ==> s.running > 0)
            && (next.DropPermit? ==> s.permits > 0)
  {
    var s := Final(Init(maxParallel), es);
    InitInv(maxParallel);
    InvAlongRun(Init(maxParallel), es);
    ConstantsAlongRun(Init(maxParallel), es);
    CountedTasksFit(s);
    if next.CountOff? { assert next.job in CountedTasks(s); }
    if next.DropPermit? { assert next.job in s.tasks.Keys; }
  }

  lemma CountedTasksFit(s: State)
    ensures |CountedTasks(s)| <= |s.tasks|
  {
    SubsetIsSmaller(CountedTasks(s), s.tasks.Keys);
  }

  lemma {:induction false} SubsetIsSmaller(a: set<Job>, b: set<Job>)
    requires a <= b
    ensures |a| <= |b|
  {
    assert b == a + (b - a);
  }

  lemma {:induction false} ConstantsAlongRun(s: State, es: seq<Event>)
    requires IsRun(s, es) && |s.channel| <= TEST_QUEUE_CAPACITY
    ensures Final(s, es).maxParallel == s.maxParallel && |Final(s, es).channel| <= TEST_QUEUE_CAPACITY
    decreases |es|
  {
    if es != [] { ConstantsAlongRun(Apply(s, es[0]), es[1..]); }
  }

  /** Whenever the registry lock is free, the jobs in the channel, with the dispatcher, or spawned
      and not completed are exactly the pending entries, each once. */
  lemma {:induction false} JobsMatchPending(maxParallel: nat, es: seq<Event>, j: Job)
    requires IsRun(Init(maxParallel), es) && Final(Init(maxParallel), es).lock.Free?
    ensures var s := Final(Init(maxParallel), es);
            multiset(s.channel)[j] + One(Dispatching(s, j)) + One(Testing(s, j))
            == One(j.node in s.registry.pending && s.registry.pending[j.node] == j.op)
  {
    InitInv(maxParallel);
    InvAlongRun(Init(maxParallel), es);
    assert JobAt(Final(Init(maxParallel), es), j);
  }

  /** Two different jobs under way are for different nodes. */
  lemma {:induction false} OneTestPerNode(maxParallel: nat, es: seq<Event>, i: Job, j: Job)
    requires IsRun(Init(maxParallel), es)
    requires Places(Final(Init(maxParallel), es), i) > 0 && Places(Final(Init(maxParallel), es), j) > 0
    requires i.node == j.node
    ensures i == j && Places(Final(Init(maxParallel), es), i) == 1
  {
    var s := Final(Init(maxParallel), es);
    InitInv(maxParallel);
    InvAlongRun(Init(maxParallel), es);
    assert JobAt(s, i) && JobAt(s, j);
  }

  /** Every pending entry names a queued or running operation of its node, every such operation is
      pending, and the finished history stays within its limit. */
  lemma {:induction false} RegistryStaysConsistent(maxParallel: nat, es: seq<Event>)
    requires IsRun(Init(maxParallel), es)
    ensures var r := Final(Init(maxParallel), es).registry;
            && (forall n, op :: n in r.pending && r.pending[n] == op <==>
                                op in r.operations && r.operations[op] in {Queued(n), Running(n)})
            && |Finished(r.operations)| <= COMPLETED_OPERATION_HISTORY
  {
    InitInv(maxParallel);
    InvAlongRun(Init(maxParallel), es);
    var r := Final(Init(maxParallel), es).registry;
    forall n, op ensures n in r.pending && r.pending[n] == op <==>
                         op in r.operations && r.operations[op] in {Queued(n), Running(n)} {
    }
  }

  // ----- the scheduler enqueues a node at most once -----

  /** Node `n` is in every refreshed snapshot, and no round lists it twice. */
  ghost predicate StaysListed(s: State, es: seq<Event>, n: NodeId)
    requires IsRun(s, es)
    decreases |es|
  {
    es == [] ||
    (&& (es[0].Refresh? ==> n in es[0].current)
     && (es[0].BeginRound? ==> multiset(Apply(s, es[0]).candidates)[n] <= 1)
     && StaysListed(Apply(s, es[0]), es[1..], n))
  }

  predicate SchedulerHolds(s: State, n: NodeId) { s.lock.Held? && s.lock.automatic && s.lock.job.node == n }

  /** How often the scheduler has newly enqueued `n`, counting an attempt that may still succeed. */
  function AutoCount(s: State, n: NodeId): nat {
    s.autoNew[n] + One(SchedulerHolds(s, n) && s.lock.stage != QueueFull && s.lock.stage != CountedDown)
  }

  /** `n` cannot leave the known nodes any more: it was observed, or its pending job was sent. */
  predicate Settled(s: State, n: NodeId) {
    n in s.registry.observed || (n in s.registry.pending && !Enqueuing(s, Job(s.registry.pending[n], n)))
  }

  ghost predicate OnceInv(s: State, n: NodeId) {
    && multiset(s.candidates)[n] <= 1
    && AutoCount(s, n) <= 1
    && (AutoCount(s, n) == 1 || SchedulerHolds(s, n) ==> n !in s.candidates)
    && (s.autoNew[n] > 0 ==> Settled(s, n))
    && (s.lock.Held? ==> Pending(s, s.lock.job))
  }

  lemma QueueingKeepsOnce(s: State, e: Event, n: NodeId)
    requires OnceInv(s, n) && Enabled(s, e) && e.LockAndQueue?
    ensures OnceInv(ApplyEnqueue(s, e), n)
  {
    if e.automatic { assert s.candidates == [s.candidates[0]] + s.candidates[1..]; }
  }

  lemma EnqueueKeepsOnce(s: State, e: Event, n: NodeId)
    requires OnceInv(s, n) && Enabled(s, e)
    requires e.CountUp? || e.TrySend? || e.CountDown?
    ensures OnceInv(ApplyEnqueue(s, e), n)
  {
  }

  lemma UnlockingKeepsOnce(s: State, e: Event, n: NodeId)
    requires OnceInv(s, n) && Enabled(s, e) && (e.Rollback? || e.Unlock?)
    ensures OnceInv(ApplyEnqueue(s, e), n)
  {
  }

  lemma TaskKeepsOnce(s: State, e: Event, n: NodeId)
    requires e.MarkRunning? || e.Complete? || e.CountOff? || e.DropPermit?
    requires OnceInv(s, n) && Enabled(s, e) && JobAt(s, e.job)
    ensures OnceInv(ApplyTask(s, e), n)
  {
  }

  lemma SchedulerKeepsOnce(s: State, e: Event, n: NodeId)
    requires OnceInv(s, n) && Enabled(s, e)
    requires e.Refresh? || e.BeginRound? || e.SkipCandidate?
    requires e.Refresh? ==> n in e.current
    requires e.BeginRound? ==> multiset(ApplyScheduler(s, e).candidates)[n] <= 1
    ensures OnceInv(ApplyScheduler(s, e), n)
  {
    if e.BeginRound? { ChosenTestsAreEligible(e.nodes, e.tested, Known(s.registry), e.capacity); }
    if e.SkipCandidate? { assert s.candidates == [s.candidates[0]] + s.candidates[1..]; }
  }

  lemma OnceKept(s: State, e: Event, n: NodeId)
    requires Inv(s) && OnceInv(s, n) && Enabled(s, e)
    requires e.Refresh? ==> n in e.current
    requires e.BeginRound? ==> multiset(Apply(s, e).candidates)[n] <= 1
    ensures OnceInv(Apply(s, e), n)
  {
    if e.LockAndQueue? { QueueingKeepsOnce(s, e, n); }
    else if e.CountUp? || e.TrySend? || e.CountDown? { EnqueueKeepsOnce(s, e, n); }
    else if e.Rollback? || e.Unlock? { UnlockingKeepsOnce(s, e, n); }
    else if e.MarkRunning? || e.Complete? || e.CountOff? || e.DropPermit? { assert JobAt(s, e.job); TaskKeepsOnce(s, e, n); }
    else if e.Refresh? || e.BeginRound? || e.SkipCandidate? { SchedulerKeepsOnce(s, e, n); }
  }

  lemma {:induction false} OnceAlongRun(s: State, es: seq<Event>, n: NodeId)
    requires Inv(s) && OnceInv(s, n) && IsRun(s, es) && StaysListed(s, es, n)
    ensures OnceInv(Final(s, es), n)
    decreases |es|
  {
    if es != [] {
      InvKept(s, es[0]);
      OnceKept(s, es[0], n);
      OnceAlongRun(Apply(s, es[0]), es[1..], n);
    }
  }

  /** The scheduler newly enqueues a node at most once while it stays in every snapshot, whatever
      manual tests, failures and refreshes are interleaved. */
  lemma {:induction false} ScheduledAtMostOnce(maxParallel: nat, es: seq<Event>, n: NodeId)
    requires IsRun(Init(maxParallel), es) && StaysListed(Init(maxParallel), es, n)
    ensures Final(Init(maxParallel), es).autoNew[n] <= 1
  {
    InitInv(maxParallel);
    OnceAlongRun(Init(maxParallel), es, n);
  }

  /** Snapshots without repeated ids never show the scheduler a candidate twice. */
  lemma DistinctSnapshotsDoNotRepeat(nodes: seq<Node>, tested: set<NodeId>, known: set<NodeId>, capacity: nat, n: NodeId)
    requires DistinctIds(nodes)
    ensures NoRepeats(SelectAutomaticTests(nodes, tested, known, capacity))
    ensures multiset(SelectAutomaticTests(nodes, tested, known, capacity))[n] <= 1
  {
    ChosenTestsAreEligible(nodes, tested, known, capacity);
    CountWithoutRepeats(SelectAutomaticTests(nodes, tested, known, capacity), n);
  }

  lemma {:induction false} CountWithoutRepeats(ids: seq<NodeId>, n: NodeId)
    requires NoRepeats(ids)
    ensures multiset(ids)[n] <= 1
    decreases |ids|
  {
    if ids != [] {
      assert ids == [ids[0]] + ids[1..];
      CountWithoutRepeats(ids[1..], n);
    }
  }

  // ----- a candidate listed twice is enqueued twice -----

  lemma {:induction false} RunCons(s: State, e: Event, es: seq<Event>)
    requires Enabled(s, e) && IsRun(Apply(s, e), es)
    ensures IsRun(s, [e] + es) && Final(s, [e] + es) == Final(Apply(s, e), es)
  {
    assert ([e] + es)[1..] == es;
  }

  ghost predicate CanReach(s: State, t: State) { exists es :: IsRun(s, es) && Final(s, es) == t }

  lemma ReachSelf(s: State)
    ensures CanReach(s, s)
  {
    assert IsRun(s, []) && Final(s, []) == s;
  }

  lemma ReachStep(s: State, e: Event, t: State)
    requires Enabled(s, e) && CanReach(Apply(s, e), t)
    ensures CanReach(s, t)
  {
    var es :| IsRun(Apply(s, e), es) && Final(Apply(s, e), es) == t;
    RunCons(s, e, es);
  }

  /** Candidates that vanished from the snapshot are passed over. */
  lemma {:induction false} ReachBySkipping(s: State, k: nat, t: State)
    requires k <= |s.candidates| && CanReach(s.(candidates := s.candidates[k..]), t)
    ensures CanReach(s, t)
    decreases k
  {
    if k == 0 {
      assert s.(candidates := s.candidates[0..]) == s;
    } else {
      var s' := Apply(s, SkipCandidate);
      assert s'.candidates[k - 1..] == s.candidates[k..];
      assert s'.(candidates := s'.candidates[k - 1..]) == s.(candidates := s.candidates[k..]);
      ReachBySkipping(s', k - 1, t);
      ReachStep(s, SkipCandidate, t);
    }
  }

  /** `s` after the scheduler has enqueued its next candidate as operation `op`. */
  function Scheduled(s: State, op: OperationId): State
    requires s.candidates != []
  {
    var n := s.candidates[0];
    s.(registry := WithQueued(s.registry, n, op), channel := s.channel + [Job(op, n)], queued := s.queued + 1,
       used := s.used + {op}, candidates := s.candidates[1..], autoNew := s.autoNew + multiset{n})
  }

  lemma ReachByScheduling(s: State, op: OperationId, t: State)
    requires s.lock.Free? && |s.channel| < TEST_QUEUE_CAPACITY && s.candidates != [] && s.candidates[0] !in s.registry.pending
    requires op !in s.used && CanReach(Scheduled(s, op), t)
    ensures CanReach(s, t)
  {
    var lock := LockAndQueue(s.candidates[0], op, true);
    var s1 := Apply(s, lock);
    var s2 := Apply(s1, CountUp);
    var s3 := Apply(s2, TrySend);
    assert Apply(s3, Unlock) == Scheduled(s, op);
    ReachStep(s3, Unlock, t);
    ReachStep(s2, TrySend, t);
    ReachStep(s1, CountUp, t);
    ReachStep(s, lock, t);
  }

  /** `s` after the dispatcher has spawned the first job of the channel. */
  function Dispatched(s: State): State
    requires s.channel != []
  {
    s.(channel := s.channel[1..], queued := Decrement(s.queued), permits := s.permits + 1, running := s.running + 1,
       tasks := s.tasks[s.channel[0] := Spawned])
  }

  lemma ReachByDispatching(s: State, t: State)
    requires s.dispatcher.Waiting? && s.channel != [] && s.permits < s.maxParallel && CanReach(Dispatched(s), t)
    ensures CanReach(s, t)
  {
    var s1 := Apply(s, Receive);
    var s2 := Apply(s1, AcquirePermit);
    var s3 := Apply(s2, LeaveQueue);
    var s4 := Apply(s3, CountRunning);
    assert Apply(s4, Spawn) == Dispatched(s);
    ReachStep(s4, Spawn, t);
    ReachStep(s3, CountRunning, t);
    ReachStep(s2, LeaveQueue, t);
    ReachStep(s1, AcquirePermit, t);
    ReachStep(s, Receive, t);
  }

  /** `s` after a spawned test has failed. */
  function FailedTest(s: State, j: Job): State {
    s.(registry := WithFinished(WithRunning(s.registry, j.node, j.op), j.op, Failed(j.node, 0)),
       tasks := s.tasks[j := Completed])
  }

  lemma ReachByFailing(s: State, j: Job, t: State)
    requires s.lock.Free? && j in s.tasks && s.tasks[j] == Spawned && CanReach(FailedTest(s, j), t)
    requires s.registry.operations.Keys == {j.op}
    ensures CanReach(s, t)
  {
    var s1 := Apply(s, MarkRunning(j));
    var failed := Failed(j.node, 0);
    var operations := WithFinished(s1.registry, j.op, failed).operations;
    assert Finished(operations) == {j.op};
    assert IsPruning(operations, COMPLETED_OPERATION_HISTORY, {});
    assert operations - {} == operations;
    assert s1.tasks[j := Completed] == s.tasks[j := Completed];
    assert Apply(s1, Complete(j, failed, {})) == FailedTest(s, j);
    ReachStep(s1, Complete(j, failed, {}), t);
    ReachStep(s, MarkRunning(j), t);
  }

  /** The state in which the scheduler has queued, and a task has failed, the first listing of `n`. */
  lemma FirstListing(s: State, t: State)
    requires s.maxParallel > 0 && s == Init(s.maxParallel).(candidates := s.candidates) && s.candidates != []
    requires CanReach(FailedTest(Dispatched(Scheduled(s, 0)), Job(0, s.candidates[0])), t)
    ensures CanReach(s, t)
  {
    var j := Job(0, s.candidates[0]);
    ReachByFailing(Dispatched(Scheduled(s, 0)), j, t);
    ReachByDispatching(Scheduled(s, 0), t);
    ReachByScheduling(s, 0, t);
  }

  /** Repeated ids are not harmless: whenever the selection lists a node twice, some run newly
      enqueues it twice although the node never leaves the snapshot. */
  lemma RepeatedCandidateIsScheduledTwice(maxParallel: nat, nodes: seq<Node>, tested: set<NodeId>, capacity: nat, i: nat, j: nat)
    requires maxParallel > 0
    requires i < j < |SelectAutomaticTests(nodes, tested, {}, capacity)|
    requires SelectAutomaticTests(nodes, tested, {}, capacity)[i] == SelectAutomaticTests(nodes, tested, {}, capacity)[j]
    ensures exists t :: CanReach(Init(maxParallel), t)
                        && t.autoNew[SelectAutomaticTests(nodes, tested, {}, capacity)[i]] == 2
  {
    var init, round := Init(maxParallel), BeginRound(nodes, tested, capacity);
    var begun := Apply(init, round);
    assert Known(init.registry) == {};
    var chosen := begun.candidates;
    var n := chosen[i];
    var s := init.(candidates := chosen[i..]);
    var failed := FailedTest(Dispatched(Scheduled(s, 0)), Job(0, n));
    assert failed.candidates == chosen[i + 1..];
    var again := failed.(candidates := chosen[j..]);
    assert n !in again.registry.pending;
    var t := Scheduled(again, 1);
    ReachSelf(t);
    ReachByScheduling(again, 1, t);
    assert failed.candidates[j - i - 1..] == chosen[j..];
    ReachBySkipping(failed, j - i - 1, t);
    FirstListing(s, t);
    assert begun.(candidates := chosen[i..]) == s;
    ReachBySkipping(begun, i, t);
    ReachStep(init, round, t);
  }
}
