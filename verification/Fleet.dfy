/** Who the helper's workers belong to: the connection actor (one active, one being started, old
    ones draining) and the running tests.  Admission is atomic and every request is answered, so
    the control plane knows every worker the helper counts. */
module Fleet {
  import opened NetdProtocol
  import opened NetdCapacity
  import opened NetdInvariants
  import opened Wrappers

  /** Limits that the configuration parser enforces on `max_parallel_tests`. */
  const MIN_PARALLEL_TESTS := 1
  const MAX_PARALLEL_TESTS := 32

  function MaxWorkers(maxParallelTests: nat): nat {
    if maxParallelTests + 8 < MAX_MANAGED_WORKERS then maxParallelTests + 8 else MAX_MANAGED_WORKERS
  }

  datatype Fleet = Fleet(
    maxParallelTests: nat,
    active: Option<WorkerId>,
    switching: Option<WorkerId>,
    draining: set<WorkerId>,
    testStarting: set<WorkerId>,
    testRunning: set<WorkerId>)
  {
    /** The ids in the helper's workers map and in its `starting` set. */
    function Running(): set<WorkerId> { ToSet(active) + draining + testRunning }
    function Starting(): set<WorkerId> { ToSet(switching) + testStarting }
    /** Tests that hold a permit of the dispatcher's semaphore and own a worker. */
    function Tests(): nat { |testStarting| + |testRunning| }
  }

  datatype Step =
    | BeginSwitch(id: WorkerId)
    | EndSwitch(ok: bool)
    | StopActive
    | StopDrained(id: WorkerId)
    | BeginTest(id: WorkerId)
    | TestStarted(id: WorkerId, ok: bool)
    | EndTest(id: WorkerId)

  function ToSet(o: Option<WorkerId>): set<WorkerId> { if o.Some? then {o.value} else {} }

  /** Ids are random, so a new one is in no use. */
  predicate Unused(f: Fleet, id: WorkerId) { id !in f.Running() && id !in f.Starting() }

  /** What `reserve` answers when its reads are one step. */
  predicate Admits(f: Fleet, id: WorkerId) {
    Unused(f, id) && |f.Running()| + |f.Starting()| < MaxWorkers(f.maxParallelTests)
  }

  predicate Enabled(f: Fleet, s: Step) {
    match s
    case BeginSwitch(id) => f.switching.None? && Unused(f, id)
    case EndSwitch(_) => f.switching.Some?
    case StopActive => f.active.Some? && f.switching.None?
    case StopDrained(id) => id in f.draining
    case BeginTest(id) => f.Tests() < f.maxParallelTests && Unused(f, id)
    case TestStarted(id, _) => id in f.testStarting
    case EndTest(id) => id in f.testRunning
  }

  function Apply(f: Fleet, s: Step): Fleet
    requires Enabled(f, s)
  {
    match s
    case BeginSwitch(id) => if Admits(f, id) then f.(switching := Some(id)) else f
    case EndSwitch(ok) =>
      if ok then f.(switching := None, active := f.switching, draining := f.draining + ToSet(f.active))
      else f.(switching := None)
    case StopActive => f.(active := None)
    case StopDrained(id) => f.(draining := f.draining - {id})
    case BeginTest(id) => if Admits(f, id) then f.(testStarting := f.testStarting + {id}) else f
    case TestStarted(id, ok) =>
      f.(testStarting := f.testStarting - {id}, testRunning := if ok then f.testRunning + {id} else f.testRunning)
    case EndTest(id) => f.(testRunning := f.testRunning - {id})
  }

  predicate OneRole(f: Fleet, id: WorkerId) {
    One(f.active == Some(id)) + One(f.switching == Some(id)) + One(id in f.draining)
    + One(id in f.testStarting) + One(id in f.testRunning) <= 1
  }

  /** No worker has two roles, and the dispatcher's semaphore bounds the tests. */
  ghost predicate Inv(f: Fleet) {
    && MIN_PARALLEL_TESTS <= f.maxParallelTests <= MAX_PARALLEL_TESTS
    && f.Tests() <= f.maxParallelTests
    && forall id :: OneRole(f, id)
  }

  lemma RolesKept(f: Fleet, s: Step, id: WorkerId)
    requires Enabled(f, s) && OneRole(f, id)
    ensures OneRole(Apply(f, s), id)
  {
  }

  lemma TestsKept(f: Fleet, s: Step)
    requires Enabled(f, s) && f.Tests() <= f.maxParallelTests
    ensures Apply(f, s).Tests() <= f.maxParallelTests
  {
    match s {
      case TestStarted(id, _) => assert |f.testStarting - {id}| == |f.testStarting| - 1;
      case EndTest(id) => assert |f.testRunning - {id}| == |f.testRunning| - 1;
      case _ =>
    }
  }

  lemma InvKept(f: Fleet, s: Step)
    requires Inv(f) && Enabled(f, s)
    ensures Inv(Apply(f, s))
  {
    TestsKept(f, s);
    forall id ensures OneRole(Apply(f, s), id) { RolesKept(f, s, id); }
  }

  lemma DisjointUnion(a: set<WorkerId>, b: set<WorkerId>)
    requires forall id :: id in a ==> id !in b
    ensures |a + b| == |a| + |b|
  {
    assert a * b == {};
  }

  /** Disjoint roles add up. */
  lemma CountByRole(f: Fleet)
    requires Inv(f)
    ensures |f.Running()| + |f.Starting()| == |ToSet(f.active)| + |ToSet(f.switching)| + |f.draining| + f.Tests()
  {
    forall id
      ensures id in ToSet(f.active) ==> id !in f.draining && id !in f.testRunning
      ensures id in f.draining ==> id !in f.testRunning
      ensures id in ToSet(f.switching) ==> id !in f.testStarting
    {
      assert OneRole(f, id);
    }
    DisjointUnion(ToSet(f.active), f.draining);
    DisjointUnion(ToSet(f.active) + f.draining, f.testRunning);
    DisjointUnion(ToSet(f.switching), f.testStarting);
  }

  predicate IsRun(f: Fleet, steps: seq<Step>)
    decreases |steps|
  {
    steps == [] || (Enabled(f, steps[0]) && IsRun(Apply(f, steps[0]), steps[1..]))
  }

  function Final(f: Fleet, steps: seq<Step>): Fleet
    requires IsRun(f, steps)
    decreases |steps|
  {
    if steps == [] then f else Final(Apply(f, steps[0]), steps[1..])
  }

  function Init(maxParallelTests: nat): Fleet {
    Fleet(maxParallelTests, None, None, {}, {}, {})
  }

  lemma {:induction false} InvAlongRun(f: Fleet, steps: seq<Step>)
    requires Inv(f) && IsRun(f, steps)
    ensures Inv(Final(f, steps))
    decreases |steps|
  {
    if steps != [] {
      InvKept(f, steps[0]);
      InvAlongRun(Apply(f, steps[0]), steps[1..]);
    }
  }

  /** In every run, a switch is refused exactly when active, draining and tested workers already
      fill the helper; so never while at most six old workers drain. */
  lemma {:induction false} SwitchRefusedExactlyWhenFull(maxParallelTests: nat, steps: seq<Step>, id: WorkerId)
    requires MIN_PARALLEL_TESTS <= maxParallelTests <= MAX_PARALLEL_TESTS
    requires IsRun(Init(maxParallelTests), steps)
    requires Enabled(Final(Init(maxParallelTests), steps), BeginSwitch(id))
    ensures var f := Final(Init(maxParallelTests), steps);
            && (Apply(f, BeginSwitch(id)).switching.None? <==>
                |ToSet(f.active)| + |f.draining| + f.Tests() >= maxParallelTests + 8)
            && (|f.draining| <= 6 ==> Apply(f, BeginSwitch(id)).switching == Some(id))
  {
    var f := Final(Init(maxParallelTests), steps);
    InvAlongRun(Init(maxParallelTests), steps);
    LimitKept(Init(maxParallelTests), steps);
    CountByRole(f);
  }

  lemma {:induction false} LimitKept(f: Fleet, steps: seq<Step>)
    requires IsRun(f, steps)
    ensures Final(f, steps).maxParallelTests == f.maxParallelTests
    decreases |steps|
  {
    if steps != [] { LimitKept(Apply(f, steps[0]), steps[1..]); }
  }

  /** The admission rule used here is the helper's own: its `reserve`, taken as one step, admits
      an unused id exactly under `Admits`. */
  lemma AdmissionIsTheHelpers(f: Fleet, s: State, t: TaskId, id: WorkerId)
    requires s.maxWorkers == MaxWorkers(f.maxParallelTests)
    requires s.workers.Keys == f.Running() && s.starting == f.Starting()
    requires NetdProtocol.Enabled(s, BeginStart(t, id)) && !s.closing
    ensures (t in Reserved(s, t, id).tasks) <==> Admits(f, id)
    ensures Reserved(s, t, id).starting == if Admits(f, id) then f.Starting() + {id} else f.Starting()
  {
    ReserveAdmits(s, t, id);
    assert |s.workers.Keys| == |s.workers|;
  }
}
