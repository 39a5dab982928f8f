/** The worker manager of the privileged helper, as a machine whose atomic steps are the
    critical sections of `start`, `stop` and the two `Drop` implementations, and the external
    commands between them.  Any number of accepted clients interleave these steps; commands of the
    set-up and of the clean-up succeed or fail freely. */
module NetdProtocol {

  type WorkerId = nat
  type TaskId = nat

  /** Permits of the client semaphore in `run_netd`. */
  const MAX_CLIENTS := 32
  /** Largest network index that yields a /30 inside 10.231.0.0/16. */
  const MAX_INDEX := 16383
  const MAX_MANAGED_WORKERS := 64

  /** What exists outside the manager.  Directories are named after the worker and networks after
      their index, so both can meet leftovers; processes and tasks are new with every start. */
  datatype Resource =
    | Directory(worker: WorkerId)
    | Network(index: nat)
    | OpenVpn(run: nat)
    | Monitor(run: nat)
    | Socks(run: nat)

  /** `start` creates these, in this order. */
  function Parts(id: WorkerId, index: nat, run: nat): (r: seq<Resource>)
    ensures |r| == 5
  {
    [Directory(id), Network(index), OpenVpn(run), Monitor(run), Socks(run)]
  }

  /** Where `start` gives up once it has an index. */
  datatype Exit =
    | DirectoryFailed
    | FilesFailed
    | StoppedAfterFiles
    | NetworkFailed(partly: bool)
    | StoppedAfterNetwork
    | OpenVpnNotSpawned
    | OpenVpnNotReady
    | RoutesNotReady
    | SocksNotSpawned
    | SocketNotReady
    | StoppedAtEnd
    | LateDuplicate

  /** How many parts exist at an exit. */
  function PartsAt(exit: Exit): nat {
    match exit
    case DirectoryFailed => 0
    case FilesFailed => 1
    case StoppedAfterFiles => 1
    case NetworkFailed(_) => 1
    case StoppedAfterNetwork => 2
    case OpenVpnNotSpawned => 2
    case OpenVpnNotReady => 3
    case RoutesNotReady => 3
    case SocksNotSpawned => 4
    case SocketNotReady => 5
    case StoppedAtEnd => 5
    case LateDuplicate => 5
  }

  /** `stop_process`. */
  function StopList(id: WorkerId, index: nat, run: nat): seq<Resource> {
    [Monitor(run), Socks(run), OpenVpn(run), Network(index), Directory(id)]
  }

  /** The clean-up written out at each exit. */
  function CleanUpList(exit: Exit, id: WorkerId, index: nat, run: nat): seq<Resource> {
    match exit
    case DirectoryFailed => []
    case FilesFailed => [Directory(id)]
    case StoppedAfterFiles => [Directory(id)]
    case NetworkFailed(_) => [Network(index), Directory(id)]
    case StoppedAfterNetwork => [Network(index), Directory(id)]
    case OpenVpnNotSpawned => [Network(index), Directory(id)]
    case OpenVpnNotReady => [OpenVpn(run), Network(index), Directory(id)]
    case RoutesNotReady => [OpenVpn(run), Network(index), Directory(id)]
    case SocksNotSpawned => [Monitor(run), OpenVpn(run), Network(index), Directory(id)]
    case SocketNotReady => [Monitor(run), Socks(run), OpenVpn(run), Network(index), Directory(id)]
    case StoppedAtEnd => [Monitor(run), Socks(run), OpenVpn(run), Network(index), Directory(id)]
    case LateDuplicate => StopList(id, index, run)
  }

  /** Where a client task stands.  Every phase but `Accepted` and `Stopping` belongs to a call of
      `start` that holds the reservation of `id`. */
  datatype Phase =
    | Accepted
    | Reserving(id: WorkerId)
    | Counted(id: WorkerId, running: nat)
    | Admitted(id: WorkerId)
    | Building(id: WorkerId, index: nat, run: nat, made: nat)
    | Unwinding(id: WorkerId, index: nat, run: nat, todo: seq<Resource>)
    | Releasing(id: WorkerId)
    | Inserted(id: WorkerId)
    | Stopping(id: WorkerId, index: nat, run: nat, todo: seq<Resource>)
  {
    predicate HasReservation() { !Accepted? && !Stopping? }
    predicate HasLease() { Building? || Unwinding? || Stopping? }
    predicate CleansUp() { Unwinding? || Stopping? }
    /** The workers map has been read and did not contain `id`. */
    predicate Checked() { Counted? || Admitted? || Building? }
  }

  datatype Process = Process(index: nat, run: nat)

  /** Who holds the `NetworkLease` value of an index. */
  datatype Owner = Client(task: TaskId) | Running(worker: WorkerId)

  datatype Lease = Lease(owner: Owner, run: nat)

  datatype State = State(
    maxWorkers: nat,
    starting: set<WorkerId>,
    workers: map<WorkerId, Process>,
    free: seq<nat>,
    next: nat,
    leases: map<nat, Lease>,
    runs: nat,
    world: set<Resource>,
    tasks: map<TaskId, Phase>,
    closing: bool,
    joined: bool)

  datatype Event =
    | Accept(task: TaskId)
    | Leave(task: TaskId)
    | BeginStart(task: TaskId, id: WorkerId)
    | ReadWorkers(task: TaskId)
    | ReadStarting(task: TaskId)
    | RefuseProfile(task: TaskId)
    | Allocate(task: TaskId)
    | Acquire(task: TaskId)
    | Fail(task: TaskId, exit: Exit)
    | Insert(task: TaskId)
    | ReleaseNext(task: TaskId, ok: bool)
    | DropLease(task: TaskId)
    | DropReservation(task: TaskId)
    | BeginStop(task: TaskId, id: WorkerId)
    | DrainOne(task: TaskId, id: WorkerId)
    | Shutdown
    | Join
  {
    predicate Admits() { Accept? || Leave? || BeginStart? || ReadWorkers? || ReadStarting? || RefuseProfile? }
    predicate Builds() { Allocate? || Acquire? || Fail? || Insert? }
    predicate Releases() { ReleaseNext? || DropLease? || DropReservation? || BeginStop? || DrainOne? }
    predicate ByTask() { !Shutdown? && !Join? }
  }

  function Init(maxWorkers: nat): State {
    State(maxWorkers, {}, map[], [], 1, map[], 0, {}, map[], false, false)
  }

  function NextPart(p: Phase): Resource
    requires p.Building? && p.made < 5
  {
    Parts(p.id, p.index, p.run)[p.made]
  }

  predicate Enabled(s: State, e: Event) {
    match e
    case Accept(t) => t !in s.tasks && |s.tasks| < MAX_CLIENTS && !s.closing
    case Leave(t) => t in s.tasks && s.tasks[t].Accepted?
    case BeginStart(t, _) => t in s.tasks && s.tasks[t].Accepted?
    case ReadWorkers(t) => t in s.tasks && s.tasks[t].Reserving?
    case ReadStarting(t) => t in s.tasks && s.tasks[t].Counted?
    case RefuseProfile(t) => t in s.tasks && s.tasks[t].Admitted?
    case Allocate(t) => t in s.tasks && s.tasks[t].Admitted?
    case Acquire(t) =>
      && t in s.tasks && s.tasks[t].Building? && s.tasks[t].made < 5
      // `create_dir` and `ip netns add` fail on what already exists
      && (NextPart(s.tasks[t]).Directory? || NextPart(s.tasks[t]).Network? ==> NextPart(s.tasks[t]) !in s.world)
    case Fail(t, exit) =>
      && t in s.tasks && s.tasks[t].Building? && s.tasks[t].made == PartsAt(exit) && !exit.LateDuplicate?
      && (exit.StoppedAfterFiles? || exit.StoppedAfterNetwork? || exit.StoppedAtEnd? ==> s.closing)
    case Insert(t) => t in s.tasks && s.tasks[t].Building? && s.tasks[t].made == 5
    case ReleaseNext(t, ok) =>
      && t in s.tasks && s.tasks[t].CleansUp() && s.tasks[t].todo != []
      // aborting a task cannot fail, and nothing fails on what is not there
      && (!ok ==> s.tasks[t].todo[0] in s.world && !s.tasks[t].todo[0].Monitor?)
    case DropLease(t) => t in s.tasks && s.tasks[t].CleansUp() && s.tasks[t].todo == []
    case DropReservation(t) => t in s.tasks && (s.tasks[t].Releasing? || s.tasks[t].Inserted?)
    case BeginStop(t, _) => t in s.tasks && s.tasks[t].Accepted?
    // `stop_all` runs after every client task has been joined
    case DrainOne(t, id) => s.joined && s.tasks == map[] && id in s.workers
    case Shutdown => true
    case Join => s.closing && s.tasks == map[]
  }

  /** The index `allocate_network` draws: the top of the free list, else the 16-bit counter. */
  function DrawnIndex(s: State): nat {
    if s.free != [] then s.free[|s.free| - 1] else s.next
  }

  function Drawn(s: State): State {
    if s.free != [] then s.(free := s.free[..|s.free| - 1]) else s.(next := (s.next + 1) % 0x1_0000)
  }

  predicate UsableIndex(index: nat) { index != 0 && index <= MAX_INDEX }

  function At(s: State, t: TaskId, p: Phase): State { s.(tasks := s.tasks[t := p]) }

  function Gone(s: State, t: TaskId): State { s.(tasks := s.tasks - {t}) }

  function ApplyAdmission(s: State, e: Event): State
    requires Enabled(s, e) && e.Admits()
  {
    match e
    case Accept(t) => At(s, t, Accepted)
    case Leave(t) => Gone(s, t)
    case BeginStart(t, id) =>
      if s.closing || id in s.starting then Gone(s, t)
      else At(s.(starting := s.starting + {id}), t, Reserving(id))
    case ReadWorkers(t) =>
      var id := s.tasks[t].id;
      At(s, t, if id in s.workers then Releasing(id) else Counted(id, |s.workers|))
    case ReadStarting(t) =>
      var p := s.tasks[t];
      At(s, t, if p.running + |s.starting| > s.maxWorkers then Releasing(p.id) else Admitted(p.id))
    case RefuseProfile(t) => At(s, t, Releasing(s.tasks[t].id))
  }

  function Allocated(s: State, t: TaskId): State
    requires Enabled(s, Allocate(t))
  {
    var id, index := s.tasks[t].id, DrawnIndex(s);
    if UsableIndex(index)
    then At(Drawn(s).(leases := s.leases[index := Lease(Client(t), s.runs)], runs := s.runs + 1), t,
            Building(id, index, s.runs, 0))
    else At(Drawn(s), t, Releasing(id))
  }

  function Acquired(s: State, t: TaskId): State
    requires Enabled(s, Acquire(t))
  {
    var p := s.tasks[t];
    At(s.(world := s.world + {NextPart(p)}), t, p.(made := p.made + 1))
  }

  function Unwound(p: Phase, exit: Exit): Phase
    requires p.Building?
  {
    Unwinding(p.id, p.index, p.run, CleanUpList(exit, p.id, p.index, p.run))
  }

  function Failed(s: State, t: TaskId, exit: Exit): State
    requires Enabled(s, Fail(t, exit))
  {
    var p := s.tasks[t];
    // a failed network set-up may have left parts behind
    At(s.(world := if exit == NetworkFailed(true) then s.world + {Network(p.index)} else s.world), t, Unwound(p, exit))
  }

  function Listed(s: State, t: TaskId): State
    requires Enabled(s, Insert(t))
  {
    var p := s.tasks[t];
    if p.id in s.workers then At(s, t, Unwound(p, LateDuplicate))
    else At(s.(workers := s.workers[p.id := Process(p.index, p.run)],
               leases := s.leases[p.index := Lease(Running(p.id), p.run)]), t, Inserted(p.id))
  }

  function ApplyBuilding(s: State, e: Event): State
    requires Enabled(s, e) && e.Builds()
  {
    match e
    case Allocate(t) => Allocated(s, t)
    case Acquire(t) => Acquired(s, t)
    case Fail(t, exit) => Failed(s, t, exit)
    case Insert(t) => Listed(s, t)
  }

  /** A listed worker becomes the business of task `t`. */
  function TakenOut(s: State, t: TaskId, id: WorkerId): State
    requires id in s.workers
  {
    var w := s.workers[id];
    At(s.(workers := s.workers - {id}, leases := s.leases[w.index := Lease(Client(t), w.run)]), t,
       Stopping(id, w.index, w.run, StopList(id, w.index, w.run)))
  }

  function Released(s: State, t: TaskId, ok: bool): State
    requires Enabled(s, ReleaseNext(t, ok))
  {
    var p := s.tasks[t];
    At(s.(world := if ok then s.world - {p.todo[0]} else s.world), t, p.(todo := p.todo[1..]))
  }

  function Returned(s: State, t: TaskId): State
    requires Enabled(s, DropLease(t))
  {
    var p := s.tasks[t];
    var s' := s.(free := s.free + [p.index], leases := s.leases - {p.index});
    if p.Stopping? then Gone(s', t) else At(s', t, Releasing(p.id))
  }

  function ApplyRelease(s: State, e: Event): State
    requires Enabled(s, e) && e.Releases()
  {
    match e
    case ReleaseNext(t, ok) => Released(s, t, ok)
    case DropLease(t) => Returned(s, t)
    case DropReservation(t) => Gone(s.(starting := s.starting - {s.tasks[t].id}), t)
    case BeginStop(t, id) => if id !in s.workers then Gone(s, t) else TakenOut(s, t, id)
    case DrainOne(t, id) => TakenOut(s, t, id)
  }

  function Apply(s: State, e: Event): State
    requires Enabled(s, e)
  {
    if e.Admits() then ApplyAdmission(s, e)
    else if e.Builds() then ApplyBuilding(s, e)
    else if e.Releases() then ApplyRelease(s, e)
    else if e.Shutdown? then s.(closing := true)
    else s.(joined := true)
  }

  /** Executing a list of events, none of which may be disabled when its turn comes. */
  predicate IsRun(s: State, es: seq<Event>)
    decreases |es|
  {
    es == [] || (Enabled(s, es[0]) && IsRun(Apply(s, es[0]), es[1..]))
  }

  function Final(s: State, es: seq<Event>): State
    requires IsRun(s, es)
    decreases |es|
  {
    if es == [] then s else Final(Apply(s, es[0]), es[1..])
  }

  lemma {:induction false} RunCons(s: State, e: Event, es: seq<Event>)
    requires Enabled(s, e) && IsRun(Apply(s, e), es)
    ensures IsRun(s, [e] + es) && Final(s, [e] + es) == Final(Apply(s, e), es)
  {
    assert ([e] + es)[1..] == es;
  }

  lemma {:induction false} RunOne(s: State, e: Event)
    requires Enabled(s, e)
    ensures IsRun(s, [e]) && Final(s, [e]) == Apply(s, e)
  {
    RunCons(s, e, []);
    assert [e] + [] == [e];
  }

  lemma {:induction false} RunSnoc(s: State, es: seq<Event>, e: Event)
    requires IsRun(s, es) && Enabled(Final(s, es), e)
    ensures IsRun(s, es + [e]) && Final(s, es + [e]) == Apply(Final(s, es), e)
    decreases |es|
  {
    if es == [] {
      assert es + [e] == [e];
      RunOne(s, e);
    } else {
      RunSnoc(Apply(s, es[0]), es[1..], e);
      assert es + [e] == [es[0]] + (es[1..] + [e]);
      RunCons(s, es[0], es[1..] + [e]);
    }
  }

  lemma {:induction false} RunThen(s: State, es: seq<Event>, fs: seq<Event>)
    requires IsRun(s, es) && IsRun(Final(s, es), fs)
    ensures IsRun(s, es + fs) && Final(s, es + fs) == Final(Final(s, es), fs)
    decreases |es|
  {
    if es == [] {
      assert es + fs == fs;
    } else {
      RunThen(Apply(s, es[0]), es[1..], fs);
      assert es + fs == [es[0]] + (es[1..] + fs);
      RunCons(s, es[0], es[1..] + fs);
    }
  }

  predicate IsLimit(maxWorkers: nat) { 1 <= maxWorkers <= MAX_MANAGED_WORKERS }

  ghost predicate Reachable(s: State) {
    && IsLimit(s.maxWorkers)
    && exists es: seq<Event> :: IsRun(Init(s.maxWorkers), es) && Final(Init(s.maxWorkers), es) == s
  }
}
