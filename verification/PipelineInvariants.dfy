/** Conservation and deduplication of test jobs in every interleaving. */
module PipelineInvariants {
  import opened Wrappers
  import opened Nodes
  import opened TestRegistries
  import opened TestPipeline

  // ----- counters -----

  /** `queued_tests` counts channel, dispatcher before its decrement, and the enqueuer between its
      increment and either the send or the rollback. */
  predicate QueuedInv(s: State) {
    s.queued == |s.channel| + One(s.dispatcher.HasJob? || s.dispatcher.HasPermit?)
                + One(s.lock.Held? && (s.lock.stage == CountedUp || s.lock.stage == QueueFull))
  }

  predicate DispatcherHasPermit(s: State) {
    s.dispatcher.HasPermit? || s.dispatcher.LeftQueue? || s.dispatcher.CountedRunning?
  }

  predicate PermitInv(s: State) {
    s.permits == |s.tasks| + One(DispatcherHasPermit(s)) && s.permits <= s.maxParallel
  }

  function CountedTasks(s: State): set<Job> { set j | j in s.tasks && s.tasks[j] != CountedOff }

  predicate RunningInv(s: State) {
    s.running == |CountedTasks(s)| + One(s.dispatcher.CountedRunning?)
  }

  // ----- jobs -----

  /** The registry waits for exactly this job of its node. */
  predicate Pending(s: State, j: Job) { j.node in s.registry.pending && s.registry.pending[j.node] == j.op }

  predicate Enqueuing(s: State, j: Job) { s.lock.Held? && s.lock.stage != Sent && s.lock.job == j }
  predicate Dispatching(s: State, j: Job) { !s.dispatcher.Waiting? && s.dispatcher.job == j }
  predicate Testing(s: State, j: Job) { j in s.tasks && (s.tasks[j] == Spawned || s.tasks[j] == MarkedRunning) }

  /** In how many places job `j` is. */
  function Places(s: State, j: Job): nat {
    multiset(s.channel)[j] + One(Enqueuing(s, j)) + One(Dispatching(s, j)) + One(Testing(s, j))
  }

  /** A job is in one place when it is pending and nowhere otherwise. */
  predicate JobAt(s: State, j: Job) { Places(s, j) == One(Pending(s, j)) }

  /** Jobs under way and pending entries match one to one. */
  ghost predicate JobInv(s: State) { forall j :: JobAt(s, j) }

  /** Operation ids are never reused, and a finished job is not pending. */
  ghost predicate FreshInv(s: State) {
    && (forall n :: n in s.registry.pending ==> s.registry.pending[n] in s.used)
    && (forall op :: op in s.registry.operations ==> op in s.used)
    && (forall j :: j in s.tasks ==> j.op in s.used && (!Testing(s, j) ==> !Pending(s, j)))
  }

  predicate HistoryInv(s: State) { |Finished(s.registry.operations)| <= COMPLETED_OPERATION_HISTORY }

  ghost predicate Inv(s: State) {
    QueuedInv(s) && PermitInv(s) && RunningInv(s) && JobInv(s) && FreshInv(s) && Consistent(s.registry) && HistoryInv(s)
  }

  // ----- preservation: counters -----

  lemma QueuedKept(s: State, e: Event)
    requires QueuedInv(s) && Enabled(s, e)
    ensures QueuedInv(Apply(s, e))
  {
  }

  lemma TaskKeys(s: State, e: Event)
    requires Enabled(s, e)
    ensures Apply(s, e).tasks.Keys == if e.Spawn? then s.tasks.Keys + {s.dispatcher.job}
                                      else if e.DropPermit? then s.tasks.Keys - {e.job} else s.tasks.Keys
  {
  }

  lemma PermitKept(s: State, e: Event)
    requires PermitInv(s) && Enabled(s, e)
    requires e.Spawn? ==> s.dispatcher.job !in s.tasks
    ensures PermitInv(Apply(s, e))
  {
    TaskKeys(s, e);
    assert |s.tasks| == |s.tasks.Keys| && |Apply(s, e).tasks| == |Apply(s, e).tasks.Keys|;
  }

  lemma CountedTasksChange(s: State, e: Event)
    requires Enabled(s, e) && (e.Spawn? ==> s.dispatcher.job !in s.tasks)
    ensures CountedTasks(Apply(s, e)) == if e.Spawn? then CountedTasks(s) + {s.dispatcher.job}
                                         else if e.CountOff? then CountedTasks(s) - {e.job} else CountedTasks(s)
  {
  }

  lemma RunningKept(s: State, e: Event)
    requires RunningInv(s) && Enabled(s, e)
    requires e.Spawn? ==> s.dispatcher.job !in s.tasks
    ensures RunningInv(Apply(s, e))
  {
    CountedTasksChange(s, e);
    if e.CountOff? { assert e.job in CountedTasks(s); }
  }

  // ----- preservation: jobs -----

  lemma QueueingKeepsJob(s: State, e: Event, j: Job)
    requires JobInv(s) && FreshInv(s) && Enabled(s, e) && e.LockAndQueue?
    ensures JobAt(ApplyEnqueue(s, e), j)
  {
    assert JobAt(s, j);
  }

  lemma RollbackKeepsJob(s: State, j: Job)
    requires JobInv(s) && FreshInv(s) && Enabled(s, Rollback)
    ensures JobAt(ApplyEnqueue(s, Rollback), j)
  {
    assert JobAt(s, j) && JobAt(s, s.lock.job);
  }

  lemma EnqueueKeepsJob(s: State, e: Event, j: Job)
    requires JobInv(s) && FreshInv(s) && Enabled(s, e)
    requires e.LockAndQueue? || e.CountUp? || e.TrySend? || e.CountDown? || e.Rollback? || e.Unlock?
    ensures JobAt(ApplyEnqueue(s, e), j)
  {
    assert JobAt(s, j);
    if s.lock.Held? { assert JobAt(s, s.lock.job); }
    if e.LockAndQueue? { QueueingKeepsJob(s, e, j); } else if e.Rollback? { RollbackKeepsJob(s, j); }
  }

  lemma DispatchKeepsJob(s: State, e: Event, j: Job)
    requires JobInv(s) && FreshInv(s) && Enabled(s, e)
    requires e.Receive? || e.AcquirePermit? || e.LeaveQueue? || e.CountRunning? || e.Spawn?
    ensures JobAt(ApplyDispatch(s, e), j)
  {
    assert JobAt(s, j);
    if e.Receive? { assert s.channel == [s.channel[0]] + s.channel[1..]; }
  }

  lemma TaskKeepsJob(s: State, e: Event, j: Job)
    requires JobInv(s) && FreshInv(s) && Enabled(s, e)
    requires e.MarkRunning? || e.Complete? || e.CountOff? || e.DropPermit?
    ensures JobAt(ApplyTask(s, e), j)
  {
    assert JobAt(s, j) && JobAt(s, e.job);
  }

  lemma JobsKept(s: State, e: Event)
    requires JobInv(s) && FreshInv(s) && Enabled(s, e)
    ensures JobInv(Apply(s, e))
  {
    forall j ensures JobAt(Apply(s, e), j) {
      if e.LockAndQueue? || e.CountUp? || e.TrySend? || e.CountDown? || e.Rollback? || e.Unlock? { EnqueueKeepsJob(s, e, j); }
      else if e.Receive? || e.AcquirePermit? || e.LeaveQueue? || e.CountRunning? || e.Spawn? { DispatchKeepsJob(s, e, j); }
      else if e.MarkRunning? || e.Complete? || e.CountOff? || e.DropPermit? { TaskKeepsJob(s, e, j); }
      else { assert JobAt(s, j); }
    }
  }

  /** The dispatcher's job is not among the tasks yet. */
  lemma DispatchedJobIsNew(s: State)
    requires JobInv(s) && FreshInv(s) && !s.dispatcher.Waiting?
    ensures Pending(s, s.dispatcher.job) && s.dispatcher.job !in s.tasks
  {
    assert JobAt(s, s.dispatcher.job);
  }

  lemma EnqueueKeepsFresh(s: State, e: Event)
    requires FreshInv(s) && Enabled(s, e)
    requires e.LockAndQueue? || e.CountUp? || e.TrySend? || e.CountDown? || e.Rollback? || e.Unlock?
    ensures FreshInv(ApplyEnqueue(s, e))
  {
  }

  lemma TaskKeepsFresh(s: State, e: Event)
    requires JobInv(s) && FreshInv(s) && Enabled(s, e)
    requires e.MarkRunning? || e.Complete? || e.CountOff? || e.DropPermit?
    ensures FreshInv(ApplyTask(s, e))
  {
    if e.Complete? { assert JobAt(s, e.job); }
  }

  lemma FreshKept(s: State, e: Event)
    requires JobInv(s) && FreshInv(s) && Enabled(s, e)
    ensures FreshInv(Apply(s, e))
  {
    if !s.dispatcher.Waiting? { DispatchedJobIsNew(s); }
    if e.LockAndQueue? || e.CountUp? || e.TrySend? || e.CountDown? || e.Rollback? || e.Unlock? { EnqueueKeepsFresh(s, e); }
    else if e.MarkRunning? || e.Complete? || e.CountOff? || e.DropPermit? { TaskKeepsFresh(s, e); }
  }

  // ----- preservation: registry -----

  lemma RegistryKept(s: State, e: Event)
    requires JobInv(s) && FreshInv(s) && Consistent(s.registry) && HistoryInv(s) && Enabled(s, e)
    ensures Consistent(Apply(s, e).registry) && HistoryInv(Apply(s, e))
  {
    match e {
      case LockAndQueue(node, op, _) => if node !in s.registry.pending { QueueingKeeps(s.registry, node, op); }
      case Rollback => assert JobAt(s, s.lock.job); RollbackKeeps(s.registry, s.lock.job.node, s.lock.job.op);
      case MarkRunning(j) => assert JobAt(s, j); RunningKeeps(s.registry, j.node, j.op);
      case Complete(j, state, removed) =>
        assert JobAt(s, j);
        FinishingKeeps(s.registry, j.op, state, COMPLETED_OPERATION_HISTORY, removed);
      case _ =>
    }
  }

  lemma InvKept(s: State, e: Event)
    requires Inv(s) && Enabled(s, e)
    ensures Inv(Apply(s, e))
  {
    if !s.dispatcher.Waiting? { DispatchedJobIsNew(s); }
    QueuedKept(s, e);
    PermitKept(s, e);
    RunningKept(s, e);
    JobsKept(s, e);
    FreshKept(s, e);
    RegistryKept(s, e);
  }

  lemma InitInv(maxParallel: nat)
    ensures Inv(Init(maxParallel))
  {
    var s := Init(maxParallel);
    assert CountedTasks(s) == {};
    assert Finished(s.registry.operations) == {};
    forall j ensures JobAt(s, j) {}
  }

  lemma {:induction false} InvAlongRun(s: State, es: seq<Event>)
    requires Inv(s) && IsRun(s, es)
    ensures Inv(Final(s, es))
    decreases |es|
  {
    if es != [] {
      InvKept(s, es[0]);
      InvAlongRun(Apply(s, es[0]), es[1..]);
    }
  }
}
