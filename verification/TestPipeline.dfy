/** The test pipeline as interleaved atomic steps: API callers and the automatic scheduler that
    enqueue under the registry lock, the bounded channel, the dispatcher with its semaphore, the
    spawned test tasks, and the two atomic counters. */
module TestPipeline {
  import opened Nodes
  import opened TestRegistries

  const TEST_QUEUE_CAPACITY := 256
  const COMPLETED_OPERATION_HISTORY := 1_024
  /** A `usize` counter wraps when it is decremented at zero. */
  const COUNTER_WRAP := 0x1_0000_0000_0000_0000

  datatype Job = Job(op: OperationId, node: NodeId)

  /** How far `enqueue_test_job` has come while it holds the registry lock. */
  datatype Stage = Registered | CountedUp | Sent | QueueFull | CountedDown

  datatype Lock = Free | Held(job: Job, stage: Stage, automatic: bool)

  datatype Dispatcher = Waiting | HasJob(job: Job) | HasPermit(job: Job) | LeftQueue(job: Job) | CountedRunning(job: Job)

  datatype RunStage = Spawned | MarkedRunning | Completed | CountedOff

  datatype State = State(
    maxParallel: nat,
    registry: Registry,
    lock: Lock,
    channel: seq<Job>,
    dispatcher: Dispatcher,
    tasks: map<Job, RunStage>,
    permits: nat,
    queued: nat,
    running: nat,
    used: set<OperationId>,
    candidates: seq<NodeId>,
    autoNew: multiset<NodeId>)

  function Init(maxParallel: nat): State {
    State(maxParallel, EMPTY, Free, [], Waiting, map[], 0, 0, 0, {}, [], multiset{})
  }

  datatype Event =
    // enqueueing, by an API caller or for the scheduler's next candidate
    | LockAndQueue(node: NodeId, op: OperationId, automatic: bool)
    | CountUp
    | TrySend
    | CountDown
    | Rollback
    | Unlock
    // dispatcher
    | Receive
    | AcquirePermit
    | LeaveQueue
    | CountRunning
    | Spawn
    // test tasks
    | MarkRunning(job: Job)
    | Complete(job: Job, state: TestState, removed: set<OperationId>)
    | CountOff(job: Job)
    | DropPermit(job: Job)
    // refresh and scheduler
    | Refresh(current: set<NodeId>)
    | BeginRound(nodes: seq<Node>, tested: set<NodeId>, capacity: nat)
    | SkipCandidate

  ghost predicate Enabled(s: State, e: Event) {
    match e
    case LockAndQueue(node, op, automatic) =>
      s.lock.Free? && op !in s.used && (automatic ==> s.candidates != [] && s.candidates[0] == node)
    case CountUp => s.lock.Held? && s.lock.stage == Registered
    case TrySend => s.lock.Held? && s.lock.stage == CountedUp
    case CountDown => s.lock.Held? && s.lock.stage == QueueFull
    case Rollback => s.lock.Held? && s.lock.stage == CountedDown
    case Unlock => s.lock.Held? && s.lock.stage == Sent
    case Receive => s.dispatcher.Waiting? && s.channel != []
    case AcquirePermit => s.dispatcher.HasJob? && s.permits < s.maxParallel
    case LeaveQueue => s.dispatcher.HasPermit?
    case CountRunning => s.dispatcher.LeftQueue?
    case Spawn => s.dispatcher.CountedRunning?
    case MarkRunning(j) => s.lock.Free? && j in s.tasks && s.tasks[j] == Spawned
    case Complete(j, state, removed) =>
      && s.lock.Free? && j in s.tasks && s.tasks[j] == MarkedRunning
      && !state.InFlight() && state.node == j.node
      && IsPruning(WithFinished(s.registry, j.op, state).operations, COMPLETED_OPERATION_HISTORY, removed)
    case CountOff(j) => j in s.tasks && s.tasks[j] == Completed
    case DropPermit(j) => j in s.tasks && s.tasks[j] == CountedOff
    case Refresh(_) => s.lock.Free?
    case BeginRound(_, _, _) => s.lock.Free? && s.candidates == []
    case SkipCandidate => s.candidates != []
  }

  function Decrement(counter: nat): nat { if counter == 0 then COUNTER_WRAP - 1 else counter - 1 }

  function WithStage(s: State, stage: Stage): State
    requires s.lock.Held?
  {
    s.(lock := s.lock.(stage := stage))
  }

  /** `enqueue_test_job` under the registry lock. */
  ghost function ApplyEnqueue(s: State, e: Event): State
    requires Enabled(s, e)
    requires e.LockAndQueue? || e.CountUp? || e.TrySend? || e.CountDown? || e.Rollback? || e.Unlock?
  {
    match e
    case LockAndQueue(node, op, automatic) =>
      var s := if automatic then s.(candidates := s.candidates[1..]) else s;
      if node in s.registry.pending then s
      else s.(registry := WithQueued(s.registry, node, op), lock := Held(Job(op, node), Registered, automatic),
              used := s.used + {op})
    case CountUp => WithStage(s, CountedUp).(queued := s.queued + 1)
    case TrySend =>
      if |s.channel| < TEST_QUEUE_CAPACITY then WithStage(s, Sent).(channel := s.channel + [s.lock.job])
      else WithStage(s, QueueFull)
    case CountDown => WithStage(s, CountedDown).(queued := Decrement(s.queued))
    case Rollback =>
      // a full queue also ends the scheduler's round
      s.(registry := RolledBack(s.registry, s.lock.job.node, s.lock.job.op), lock := Free,
         candidates := if s.lock.automatic then [] else s.candidates)
    case Unlock =>
      s.(lock := Free, autoNew := if s.lock.automatic then s.autoNew + multiset{s.lock.job.node} else s.autoNew)
  }

  ghost function ApplyDispatch(s: State, e: Event): State
    requires Enabled(s, e)
    requires e.Receive? || e.AcquirePermit? || e.LeaveQueue? || e.CountRunning? || e.Spawn?
  {
    match e
    case Receive => s.(dispatcher := HasJob(s.channel[0]), channel := s.channel[1..])
    case AcquirePermit => s.(dispatcher := HasPermit(s.dispatcher.job), permits := s.permits + 1)
    case LeaveQueue => s.(dispatcher := LeftQueue(s.dispatcher.job), queued := Decrement(s.queued))
    case CountRunning => s.(dispatcher := CountedRunning(s.dispatcher.job), running := s.running + 1)
    case Spawn => s.(dispatcher := Waiting, tasks := s.tasks[s.dispatcher.job := Spawned])
  }

  ghost function ApplyTask(s: State, e: Event): State
    requires Enabled(s, e)
    requires e.MarkRunning? || e.Complete? || e.CountOff? || e.DropPermit?
  {
    match e
    case MarkRunning(j) => s.(registry := WithRunning(s.registry, j.node, j.op), tasks := s.tasks[j := MarkedRunning])
    case Complete(j, state, removed) =>
      var r := WithFinished(s.registry, j.op, state);
      s.(registry := r.(operations := r.operations - removed), tasks := s.tasks[j := Completed])
    case CountOff(j) => s.(running := Decrement(s.running), tasks := s.tasks[j := CountedOff])
    case DropPermit(j) => s.(permits := Decrement(s.permits), tasks := s.tasks - {j})
  }

  ghost function ApplyScheduler(s: State, e: Event): State
    requires Enabled(s, e)
    requires e.Refresh? || e.BeginRound? || e.SkipCandidate?
  {
    match e
    case Refresh(current) => s.(registry := Retained(s.registry, current))
    case BeginRound(nodes, tested, capacity) =>
      s.(candidates := SelectAutomaticTests(nodes, tested, Known(s.registry), capacity))
    case SkipCandidate => s.(candidates := s.candidates[1..])
  }

  ghost function Apply(s: State, e: Event): State
    requires Enabled(s, e)
  {
    if e.LockAndQueue? || e.CountUp? || e.TrySend? || e.CountDown? || e.Rollback? || e.Unlock? then ApplyEnqueue(s, e)
    else if e.Receive? || e.AcquirePermit? || e.LeaveQueue? || e.CountRunning? || e.Spawn? then ApplyDispatch(s, e)
    else if e.MarkRunning? || e.Complete? || e.CountOff? || e.DropPermit? then ApplyTask(s, e)
    else ApplyScheduler(s, e)
  }

  ghost predicate IsRun(s: State, es: seq<Event>)
    decreases |es|
  {
    es == [] || (Enabled(s, es[0]) && IsRun(Apply(s, es[0]), es[1..]))
  }

  ghost function Final(s: State, es: seq<Event>): State
    requires IsRun(s, es)
    decreases |es|
  {
    if es == [] then s else Final(Apply(s, es[0]), es[1..])
  }
}
