/** The manager object of the privileged helper.  Its methods are the critical sections and the
    external commands between them; each takes the corresponding step of `NetdProtocol`, so that
    every object stays in a reachable state, and `Start` and `Stop` are whole calls. */
module WorkerManagers {
  import opened Wrappers
  import opened NetdProtocol
  import opened NetdInvariants
  import opened NetdResources
  import opened NetdTheorems
  import opened NetdCapacity
  import opened NetdRuns

  datatype WorkerError =
    | Duplicate | Capacity | InvalidProfile | RemoteMismatch | File | CommandFailed | OpenVpnSpawn
    | OpenVpnFailed | WorkerSpawn | WorkerNotReady | ShuttingDown

  /** How the outside world answers one call of `start`. */
  datatype Outcomes = Outcomes(
    profile: Option<WorkerError>,
    directory: Option<WorkerError>,
    files: Option<WorkerError>,
    cancelledAfterFiles: bool,
    network: bool,
    networkPartly: bool,
    cancelledAfterNetwork: bool,
    openvpnSpawned: bool,
    openvpnReady: bool,
    routesReady: bool,
    socksSpawned: bool,
    socketReady: bool,
    cancelledAtEnd: bool)
  {
    /** Every external step after admission succeeds. */
    predicate AllGood() { profile.None? && SetUpGood() }
    predicate SetUpGood() { FilesGood() && NetworkGood() && TunnelGood() && SocksGood() }
    predicate FilesGood() { directory.None? && files.None? && !cancelledAfterFiles }
    predicate NetworkGood() { network && !cancelledAfterNetwork }
    predicate TunnelGood() { openvpnSpawned && openvpnReady && routesReady }
    predicate SocksGood() { socksSpawned && socketReady && !cancelledAtEnd }

    // ----- the first error of each part; `leftOver` says that what is to be made is already there -----

    function FilesError(leftOver: bool): Option<WorkerError> {
      if leftOver then Some(Duplicate)
      else if directory.Some? then directory
      else if files.Some? then files
      else if cancelledAfterFiles then Some(ShuttingDown) else None
    }

    function NetworkError(leftOver: bool): Option<WorkerError> {
      if leftOver || !network then Some(CommandFailed) else if cancelledAfterNetwork then Some(ShuttingDown) else None
    }

    function TunnelError(): Option<WorkerError> {
      if !openvpnSpawned then Some(OpenVpnSpawn)
      else if !openvpnReady then Some(OpenVpnFailed)
      else if !routesReady then Some(WorkerNotReady) else None
    }

    function SocksError(): Option<WorkerError> {
      if !socksSpawned then Some(WorkerSpawn)
      else if !socketReady then Some(WorkerNotReady)
      else if cancelledAtEnd then Some(ShuttingDown) else None
    }

    function SetUpError(directoryLeftOver: bool, networkLeftOver: bool): (e: Option<WorkerError>)
      ensures e.None? <==> !directoryLeftOver && !networkLeftOver && SetUpGood()
    {
      if FilesError(directoryLeftOver).Some? then FilesError(directoryLeftOver)
      else if NetworkError(networkLeftOver).Some? then NetworkError(networkLeftOver)
      else if TunnelError().Some? then TunnelError()
      else SocksError()
    }
  }

  const MAX_DRAINING_WORKERS := 8

  /** What the clean-up of `list` leaves of `world` if the commands for `stubborn` fail. */
  function Remaining(world: set<Resource>, list: seq<Resource>, stubborn: set<Resource>): set<Resource> {
    world - (SetOf(list) - stubborn)
  }

  /** The same, one command after the other, from the `k`-th on. */
  function Worked(world: set<Resource>, list: seq<Resource>, k: nat, stubborn: set<Resource>): set<Resource>
    requires k <= |list|
    decreases |list| - k
  {
    if k == |list| then world else Worked(world - ({list[k]} - stubborn), list, k + 1, stubborn)
  }

  lemma {:induction false} WorkedIsRemaining(world: set<Resource>, list: seq<Resource>, k: nat, stubborn: set<Resource>)
    requires k <= |list|
    ensures Worked(world, list, k, stubborn) == Remaining(world, list[k..], stubborn)
    decreases |list| - k
  {
    if k < |list| {
      WorkedIsRemaining(world - ({list[k]} - stubborn), list, k + 1, stubborn);
      assert list[k..] == [list[k]] + list[k + 1..];
      assert SetOf(list[k..]) == {list[k]} + SetOf(list[k + 1..]);
    }
  }

  /** What exists when a worker has its first `k` parts. */
  function WithParts(world: set<Resource>, id: WorkerId, index: nat, run: nat, k: nat): set<Resource>
    requires k <= 5
  {
    if k == 0 then world else WithParts(world, id, index, run, k - 1) + {Parts(id, index, run)[k - 1]}
  }

  /** What exists when `start`, which found `world`, takes `exit`. */
  function AtExit(world: set<Resource>, exit: Exit, id: WorkerId, index: nat, run: nat): set<Resource> {
    WithParts(world, id, index, run, PartsAt(exit)) + if exit == NetworkFailed(true) then {Network(index)} else {}
  }

  /** A failed start takes nothing away but a network that an earlier failed clean-up has left under
      its index, and leaves nothing but what its own clean-up failed to remove. */
  predicate Undone(before: set<Resource>, after: set<Resource>, index: nat, stubborn: set<Resource>) {
    before - {Network(index)} <= after <= before + stubborn
  }

  lemma UndoneMeans(before: set<Resource>, after: set<Resource>, index: nat, stubborn: set<Resource>)
    ensures after == before ==> Undone(before, after, index, stubborn)
    ensures Undone(before, after, index, stubborn) && stubborn == {} && Network(index) !in before ==> after == before
  {
  }

  /** The entries of every clean-up list, from the last to the first. */
  lemma CleanUpItems(exit: Exit, id: WorkerId, index: nat, run: nat)
    ensures var list := CleanUpList(exit, id, index, run);
            && |list| == (if exit.NetworkFailed? then 2 else PartsAt(exit))
            && (|list| >= 1 ==> list[|list| - 1] == Directory(id))
            && (|list| >= 2 ==> list[|list| - 2] == Network(index))
            && (|list| >= 3 ==> list[|list| - 3] == OpenVpn(run))
            && (|list| == 4 ==> list[0] == Monitor(run))
            && (|list| == 5 ==> list[0] == Monitor(run) && list[1] == Socks(run))
  {
  }

  lemma {:induction false} WithPartsAre(world: set<Resource>, id: WorkerId, index: nat, run: nat, k: nat, r: Resource)
    requires k <= 5
    ensures r in WithParts(world, id, index, run, k) <==> r in world || r in Parts(id, index, run)[..k]
  {
    if k > 0 {
      WithPartsAre(world, id, index, run, k - 1, r);
      PartIsAmong(id, index, run, k, r);
      PartIsAmong(id, index, run, k - 1, r);
    }
  }

  /** The clean-up of every exit undoes what `start` did up to there. */
  lemma ExitUndoes(before: set<Resource>, exit: Exit, id: WorkerId, index: nat, run: nat, stubborn: set<Resource>)
    requires exit == DirectoryFailed || Directory(id) !in before
    requires RunsAreBelow(before, run)
    ensures Undone(before, Remaining(AtExit(before, exit, id, index, run), CleanUpList(exit, id, index, run), stubborn),
                   index, stubborn)
  {
    var after := Remaining(AtExit(before, exit, id, index, run), CleanUpList(exit, id, index, run), stubborn);
    forall r ensures (r in before && r != Network(index) ==> r in after) && (r in after ==> r in before || r in stubborn) {
      WithPartsAre(before, id, index, run, PartsAt(exit), r);
      CleanUpMatchesParts(exit, id, index, run, r);
      PartIsAmong(id, index, run, PartsAt(exit), r);
    }
  }

  /** Aborting the monitor task cannot fail. */
  ghost predicate IsStubborn(stubborn: set<Resource>) { forall r :: r in stubborn ==> !r.Monitor? }

  /** The steps `history` of a new manager end in `s`. */
  ghost predicate LedTo(maxWorkers: nat, history: seq<Event>, s: State) {
    IsLimit(maxWorkers) && IsRun(Init(maxWorkers), history) && Final(Init(maxWorkers), history) == s
  }

  predicate Continues(s: State, h: seq<Event>, e: Event) { Enabled(s, e) }

  /** A set of states, each with a history that leads to it, that no step leaves.  Objects carry such
      a set, so that their steps need not unfold the definition of a run. */
  ghost predicate IsClosed(lives: iset<(State, seq<Event>)>) {
    && (forall s, h {:trigger LedTo(s.maxWorkers, h, s)} :: (s, h) in lives ==> LedTo(s.maxWorkers, h, s))
    && (forall s, h, e {:trigger Continues(s, h, e)} ::
          (s, h) in lives && Continues(s, h, e) ==> (Apply(s, e), h + [e]) in lives)
  }

  type ClosedLives = x: iset<(State, seq<Event>)> | IsClosed(x) ghost witness iset{}

  /** All states of all managers. */
  ghost function Lives(): ClosedLives {
    LivesAreClosed();
    iset s: State, h: seq<Event> | LedTo(s.maxWorkers, h, s) :: (s, h)
  }

  lemma LivesAreClosed()
    ensures IsClosed(iset s: State, h: seq<Event> | LedTo(s.maxWorkers, h, s) :: (s, h))
  {
    forall s: State, h, e | LedTo(s.maxWorkers, h, s) && Enabled(s, e)
      ensures LedTo(Apply(s, e).maxWorkers, h + [e], Apply(s, e))
    {
      RunSnoc(Init(s.maxWorkers), h, e);
      MaxWorkersStays(s, e);
    }
  }

  lemma LiveStep(lives: ClosedLives, s: State, h: seq<Event>, e: Event)
    requires (s, h) in lives && Enabled(s, e)
    ensures (Apply(s, e), h + [e]) in lives
  {
    assert Continues(s, h, e);
  }

  lemma LiveAllocation(lives: ClosedLives, s: State, h: seq<Event>, t: TaskId)
    requires (s, h) in lives && Enabled(s, Allocate(t))
    ensures UsableIndex(DrawnIndex(s)) && DrawnIndex(s) !in s.leases && RunsAreBelow(s.world, s.runs)
    ensures (At(Drawn(s).(leases := s.leases[DrawnIndex(s) := Lease(Client(t), s.runs)], runs := s.runs + 1), t,
                Building(s.tasks[t].id, DrawnIndex(s), s.runs, 0)), h + [Allocate(t)]) in lives
  {
    LiveStep(lives, s, h, Allocate(t));
    assert LedTo(s.maxWorkers, h, s);
    EveryAllocationSucceeds(s, t);
    ReachableWorld(s);
  }

  lemma LiveInsertion(lives: ClosedLives, s: State, h: seq<Event>, t: TaskId)
    requires (s, h) in lives && Enabled(s, Insert(t))
    ensures s.tasks[t].id !in s.workers
    ensures var p := s.tasks[t];
            (At(s.(workers := s.workers[p.id := Process(p.index, p.run)],
                   leases := s.leases[p.index := Lease(Running(p.id), p.run)]), t, Inserted(p.id)), h + [Insert(t)]) in lives
  {
    LiveStep(lives, s, h, Insert(t));
    assert LedTo(s.maxWorkers, h, s);
    OnlyHolderActs(s, Insert(t), s.tasks[t].id);
  }

  /** A key that is entered anew or taken out again. */
  lemma MapRoundTrip<K, V>(m: map<K, V>, k: K, v: V, w: V)
    requires k !in m
    ensures m[k := v] - {k} == m && m[k := v][k := w] == m[k := w]
  {
  }

  lemma UpdateAndRemove<K, V>(m: map<K, V>, k: K, v: V)
    ensures m[k := v] - {k} == m - {k}
  {
  }

  lemma SetRoundTrip<K>(m: set<K>, k: K)
    ensures k !in m ==> m + {k} - {k} == m
    ensures k in m ==> m + {k} == m
  {
  }

  /** `s` with one more worker, under the next index and with its five parts. */
  function WithWorker(s: State, id: WorkerId): State {
    var index := DrawnIndex(s);
    Drawn(s).(workers := s.workers[id := Process(index, s.runs)],
              leases := s.leases[index := Lease(Running(id), s.runs)],
              runs := s.runs + 1,
              world := WithParts(s.world, id, index, s.runs, 5))
  }

  /** `s` after a start that drew the next index and gave it back. */
  function Reverted(s: State, world: set<Resource>, closing: bool): State {
    Drawn(s).(free := Drawn(s).free + [DrawnIndex(s)], runs := s.runs + 1, world := world, closing := closing)
  }

  /** There is room for a start of `id`. */
  predicate HasRoom(s: State, id: WorkerId) {
    !s.closing && id !in s.starting && id !in s.workers && |s.workers| + |s.starting| + 1 <= s.maxWorkers
  }

  /** Nothing is left over where the next start of `id` puts its directory and its network. */
  predicate IsClear(s: State, id: WorkerId) { Directory(id) !in s.world && Network(DrawnIndex(s)) !in s.world }

  /** Why `start` stops before it has a place. */
  function AdmitError(s: State, id: WorkerId): (e: Option<WorkerError>)
    ensures e.None? <==> HasRoom(s, id)
  {
    if s.closing then Some(ShuttingDown)
    else if id in s.starting || id in s.workers then Some(Duplicate)
    else if |s.workers| + |s.starting| + 1 > s.maxWorkers then Some(Capacity) else None
  }

  function SetUpError(s: State, id: WorkerId, o: Outcomes): (e: Option<WorkerError>)
    ensures e.None? <==> IsClear(s, id) && o.SetUpGood()
  {
    o.SetUpError(Directory(id) in s.world, Network(DrawnIndex(s)) in s.world)
  }

  /** The first error of `start`, if any. */
  function StartError(s: State, id: WorkerId, o: Outcomes): (e: Option<WorkerError>)
    ensures e.None? <==> HasRoom(s, id) && IsClear(s, id) && o.AllGood()
  {
    if AdmitError(s, id).Some? then AdmitError(s, id)
    else if o.profile.Some? then o.profile
    else SetUpError(s, id, o)
  }

  lemma SameTasks(tasks: map<TaskId, Phase>, tasks': map<TaskId, Phase>, t: TaskId, p: Phase)
    requires tasks - {t} == tasks' - {t}
    ensures tasks'[t := p] == tasks[t := p]
    ensures t in tasks' && tasks'[t] == p ==> tasks' == tasks[t := p]
  {
    forall u | u in tasks' && u != t ensures u in tasks && tasks'[u] == tasks[u] { assert u in tasks' - {t}; }
    forall u | u in tasks && u != t ensures u in tasks' { assert u in tasks - {t}; }
  }

  /** `s` with the next index leased to task `t`, which has since done something about resources. */
  function Leased(s: State, t: TaskId, s': State): State {
    Drawn(s).(leases := s.leases[DrawnIndex(s) := Lease(Client(t), s.runs)], runs := s.runs + 1,
              world := s'.world, tasks := s'.tasks, closing := s'.closing)
  }

  /** The two ways a leased index goes. */
  lemma {:induction false} LeaseIsListed(s: State, t: TaskId, id: WorkerId, s': State)
    requires s' == Leased(s, t, s') && s'.tasks - {t} == s.tasks - {t} && DrawnIndex(s) !in s.leases
    requires s'.world == WithParts(s.world, id, DrawnIndex(s), s.runs, 5) && s'.closing == s.closing
    ensures At(s'.(workers := s'.workers[id := Process(DrawnIndex(s), s.runs)],
                   leases := s'.leases[DrawnIndex(s) := Lease(Running(id), s.runs)]), t, Inserted(id))
            == At(WithWorker(s, id), t, Inserted(id))
  {
    MapRoundTrip(s.leases, DrawnIndex(s), Lease(Client(t), s.runs), Lease(Running(id), s.runs));
    SameTasks(s.tasks, s'.tasks, t, Inserted(id));
  }

  lemma LeaseIsReturned(s: State, t: TaskId, id: WorkerId, s': State)
    requires s' == Leased(s, t, s') && s'.tasks - {t} == s.tasks - {t} && DrawnIndex(s) !in s.leases
    ensures At(s'.(free := s'.free + [DrawnIndex(s)], leases := s'.leases - {DrawnIndex(s)}), t, Releasing(id))
            == At(Reverted(s, s'.world, s'.closing), t, Releasing(id))
  {
    MapRoundTrip(s.leases, DrawnIndex(s), Lease(Client(t), s.runs), Lease(Running(id), s.runs));
    SameTasks(s.tasks, s'.tasks, t, Releasing(id));
  }

  lemma GoneAt(s: State, t: TaskId, p: Phase, starting: set<WorkerId>)
    ensures Gone(At(s, t, p).(starting := starting), t) == Gone(s.(starting := starting), t)
  {
    assert s.tasks[t := p] - {t} == s.tasks - {t};
  }

  /** A reservation that is taken and given back changes nothing else. */
  lemma ReservationPasses(s: State, t: TaskId, id: WorkerId, world: set<Resource>, closing: bool)
    requires id !in s.starting
    ensures var s' := At(s.(starting := s.starting + {id}), t, Admitted(id));
            && Gone(s'.(starting := s'.starting - {id}), t) == Gone(s, t)
            && Gone(WithWorker(s', id).(starting := s'.starting - {id}), t) == Gone(WithWorker(s, id), t)
            && Gone(Reverted(s', world, closing).(starting := s'.starting - {id}), t) == Gone(Reverted(s, world, closing), t)
  {
    var s' := At(s.(starting := s.starting + {id}), t, Admitted(id));
    assert s'.starting - {id} == s.starting;
    assert s'.tasks - {t} == s.tasks - {t};
  }

  class WorkerManager {
    const maxWorkers: nat
    var starting: set<WorkerId>
    var workers: map<WorkerId, Process>
    var freeNetworks: seq<nat>
    var nextNetwork: nat
    var runs: nat
    /** Directories, networks, processes and monitor tasks that exist. */
    var resources: set<Resource>
    var closing: bool
    var joined: bool
    // who holds which lease value, where each client task stands, and all steps so far
    ghost var leases: map<nat, Lease>
    ghost var tasks: map<TaskId, Phase>
    ghost var history: seq<Event>
    ghost const lives: ClosedLives

    ghost function View(): State
      reads this
    {
      State(maxWorkers, starting, workers, freeNetworks, nextNetwork, leases, runs, resources, tasks, closing, joined)
    }

    /** The object is where its history has led it. */
    ghost predicate Valid()
      reads this
    {
      (View(), history) in lives
    }

    constructor (maxParallelTests: nat)
      requires maxParallelTests >= 1
      ensures Valid() && history == []
      ensures View() == Init(if maxParallelTests + MAX_DRAINING_WORKERS < MAX_MANAGED_WORKERS
                             then maxParallelTests + MAX_DRAINING_WORKERS else MAX_MANAGED_WORKERS)
    {
      var limit := if maxParallelTests + MAX_DRAINING_WORKERS < MAX_MANAGED_WORKERS
                   then maxParallelTests + MAX_DRAINING_WORKERS else MAX_MANAGED_WORKERS;
      maxWorkers := limit;
      starting, workers, freeNetworks, nextNetwork := {}, map[], [], 1;
      runs, resources, closing, joined := 0, {}, false, false;
      leases, tasks, history := map[], map[], [];
      lives := Lives();
      new;
      assert LedTo(limit, [], Init(limit));
    }

    // ----- single steps -----

    /** A client is accepted while a permit is left. */
    method AcceptClient(ghost t: TaskId)
      requires Valid() && Enabled(View(), Accept(t))
      modifies this`tasks, this`history
      ensures Valid() && View() == Apply(old(View()), Accept(t)) && history == old(history) + [Accept(t)]
    {
      LiveStep(lives, View(), history, Accept(t));
      tasks := tasks[t := Accepted];
      history := history + [Accept(t)];
    }

    method Cancel()
      requires Valid()
      modifies this`closing, this`history
      ensures Valid() && closing && history == old(history) + [Shutdown]
    {
      LiveStep(lives, View(), history, Shutdown);
      closing := true;
      history := history + [Shutdown];
    }

    /** The listener is gone and every client task has ended. */
    method JoinClients()
      requires Valid() && Enabled(View(), Join)
      modifies this`joined, this`history
      ensures Valid() && joined && history == old(history) + [Join]
    {
      LiveStep(lives, View(), history, Join);
      joined := true;
      history := history + [Join];
    }

    /** First critical section of `reserve`. */
    method ReserveInsert(ghost t: TaskId, id: WorkerId) returns (inserted: bool)
      requires Valid() && t in tasks && tasks[t] == Accepted && !closing
      modifies this`starting, this`tasks, this`history
      ensures Valid() && history == old(history) + [BeginStart(t, id)] && tasks - {t} == old(tasks - {t})
      ensures inserted <==> id !in old(starting)
      ensures starting == old(starting) + {id}
      ensures if inserted then t in tasks && tasks[t] == Reserving(id) else tasks == old(tasks - {t})
    {
      LiveStep(lives, View(), history, BeginStart(t, id));
      inserted := id !in starting;
      if inserted {
        starting := starting + {id};
        tasks := tasks[t := Reserving(id)];
      } else {
        tasks := tasks - {t};
      }
      history := history + [BeginStart(t, id)];
    }

    /** Second critical section of `reserve`: `None` when the id already runs. */
    method ReadRunning(ghost t: TaskId, id: WorkerId) returns (running: Option<nat>)
      requires Valid() && t in tasks && tasks[t] == Reserving(id)
      modifies this`tasks, this`history
      ensures Valid() && history == old(history) + [ReadWorkers(t)] && tasks - {t} == old(tasks - {t})
      ensures running == if id in workers then None else Some(|workers|)
      ensures t in tasks && tasks[t] == if id in workers then Releasing(id) else Counted(id, |workers|)
    {
      LiveStep(lives, View(), history, ReadWorkers(t));
      running := if id in workers then None else Some(|workers|);
      tasks := tasks[t := if id in workers then Releasing(id) else Counted(id, |workers|)];
      history := history + [ReadWorkers(t)];
    }

    /** Third critical section of `reserve`. */
    method ReadReserved(ghost t: TaskId, ghost id: WorkerId, running: nat) returns (admitted: bool)
      requires Valid() && t in tasks && tasks[t] == Counted(id, running)
      modifies this`tasks, this`history
      ensures Valid() && history == old(history) + [ReadStarting(t)] && tasks - {t} == old(tasks - {t})
      ensures admitted <==> running + |starting| <= maxWorkers
      ensures t in tasks && tasks[t] == if admitted then Admitted(id) else Releasing(id)
    {
      LiveStep(lives, View(), history, ReadStarting(t));
      admitted := running + |starting| <= maxWorkers;
      tasks := tasks[t := if admitted then Admitted(id) else Releasing(id)];
      history := history + [ReadStarting(t)];
    }

    method RefuseStart(ghost t: TaskId, ghost id: WorkerId)
      requires Valid() && t in tasks && tasks[t] == Admitted(id)
      modifies this`tasks, this`history
      ensures Valid() && history == old(history) + [RefuseProfile(t)] && View() == At(old(View()), t, Releasing(id))
    {
      LiveStep(lives, View(), history, RefuseProfile(t));
      tasks := tasks[t := Releasing(id)];
      history := history + [RefuseProfile(t)];
    }

    /** The last freed index, else the 16-bit counter. */
    method DrawIndex() returns (index: nat)
      modifies this`freeNetworks, this`nextNetwork
      ensures index == DrawnIndex(old(View())) && View() == Drawn(old(View()))
    {
      if |freeNetworks| > 0 {
        index := freeNetworks[|freeNetworks| - 1];
        freeNetworks := freeNetworks[..|freeNetworks| - 1];
      } else {
        index := nextNetwork;
        nextNetwork := (nextNetwork + 1) % 0x1_0000;
      }
    }

    /** `allocate_network`, which always finds an index. */
    method AllocateNetwork(ghost t: TaskId) returns (index: nat, run: nat)
      requires Valid() && Enabled(View(), Allocate(t))
      modifies this`freeNetworks, this`nextNetwork, this`runs, this`leases, this`tasks, this`history
      ensures Valid() && history == old(history) + [Allocate(t)]
      ensures index == DrawnIndex(old(View())) && UsableIndex(index) && index !in old(leases) && run == old(runs)
      ensures RunsAreBelow(resources, run)
      ensures View() == At(Leased(old(View()), t, old(View())), t, Building(old(tasks)[t].id, index, run, 0))
    {
      LiveAllocation(lives, View(), history, t);
      index := DrawIndex();
      run := runs;
      runs := runs + 1;
      leases := leases[index := Lease(Client(t), run)];
      tasks := tasks[t := Building(tasks[t].id, index, run, 0)];
      history := history + [Allocate(t)];
    }

    /** The next part of a worker comes into being. */
    method Make(ghost t: TaskId, ghost id: WorkerId, ghost index: nat, ghost run: nat, ghost made: nat, part: Resource)
      requires Valid() && t in tasks && made < 5 && tasks[t] == Building(id, index, run, made)
      requires part == Parts(id, index, run)[made] && (part.Directory? || part.Network? ==> part !in resources)
      modifies this`resources, this`tasks, this`history
      ensures Valid() && history == old(history) + [Acquire(t)] && resources == old(resources) + {part}
      ensures t in tasks && tasks[t] == Building(id, index, run, made + 1) && tasks - {t} == old(tasks - {t})
    {
      LiveStep(lives, View(), history, Acquire(t));
      resources := resources + {part};
      tasks := tasks[t := Building(id, index, run, made + 1)];
      history := history + [Acquire(t)];
    }

    /** `start` decides to give up. */
    method GiveUp(ghost t: TaskId, ghost id: WorkerId, index: nat, ghost run: nat, exit: Exit,
                  ghost stubborn: set<Resource>, ghost before: set<Resource>)
      returns (ghost p: Phase, ghost goal: set<Resource>)
      requires Valid() && HasMade(t, id, index, run, before, PartsAt(exit)) && !exit.LateDuplicate?
      requires exit.StoppedAfterFiles? || exit.StoppedAfterNetwork? || exit.StoppedAtEnd? ==> closing
      modifies this`resources, this`tasks, this`history
      ensures Valid() && history == old(history) + [Fail(t, exit)] && tasks - {t} == old(tasks - {t})
      ensures p == Unwinding(id, index, run, CleanUpList(exit, id, index, run))
      ensures goal == Remaining(AtExit(before, exit, id, index, run), CleanUpList(exit, id, index, run), stubborn)
      ensures CleaningUp(t, p, 0, stubborn, goal)
    {
      LiveStep(lives, View(), history, Fail(t, exit));
      if exit == NetworkFailed(true) { resources := resources + {Network(index)}; }
      p := Unwinding(id, index, run, CleanUpList(exit, id, index, run));
      tasks := tasks[t := p];
      history := history + [Fail(t, exit)];
      goal := Worked(resources, p.todo, 0, stubborn);
      WorkedIsRemaining(resources, p.todo, 0, stubborn);
      assert p.todo[0..] == p.todo;
    }

    /** Task `t` has gone through `k` commands of its clean-up `p`; going through the rest leads to
        `goal`. */
    ghost predicate CleaningUp(t: TaskId, p: Phase, k: nat, stubborn: set<Resource>, goal: set<Resource>)
      requires p.CleansUp() && k <= |p.todo|
      reads this
    {
      t in tasks && tasks[t] == p.(todo := p.todo[k..]) && Worked(resources, p.todo, k, stubborn) == goal
    }

    /** One clean-up command; `stubborn` says which ones fail. */
    method Remove(ghost t: TaskId, ghost p: Phase, ghost k: nat, part: Resource, stubborn: set<Resource>,
                  ghost goal: set<Resource>)
      requires Valid() && IsStubborn(stubborn)
      requires p.CleansUp() && k < |p.todo| && p.todo[k] == part && CleaningUp(t, p, k, stubborn, goal)
      modifies this`resources, this`tasks, this`history
      ensures Valid() && CleaningUp(t, p, k + 1, stubborn, goal) && tasks - {t} == old(tasks - {t})
      ensures history == old(history) + [ReleaseNext(t, part !in stubborn || part !in old(resources))]
    {
      var ok := part !in stubborn || part !in resources;
      LiveStep(lives, View(), history, ReleaseNext(t, ok));
      assert p.todo[k..][1..] == p.todo[k + 1..];
      if ok { resources := resources - {part}; }
      assert resources == old(resources) - ({part} - stubborn);
      tasks := tasks[t := p.(todo := p.todo[k + 1..])];
      history := history + [ReleaseNext(t, ok)];
    }

    /** The clean-up is over. */
    lemma CleanUpEnds(t: TaskId, p: Phase, stubborn: set<Resource>, goal: set<Resource>)
      requires p.CleansUp() && CleaningUp(t, p, |p.todo|, stubborn, goal)
      ensures tasks[t] == p.(todo := []) && resources == goal
    {
    }

    /** The lease is dropped: the index goes back to the free list. */
    method ReturnIndex(ghost t: TaskId, ghost p: Phase, index: nat)
      requires Valid() && t in tasks && tasks[t] == p && p.CleansUp() && p.todo == [] && p.index == index
      modifies this`freeNetworks, this`leases, this`tasks, this`history
      ensures Valid() && history == old(history) + [DropLease(t)]
      ensures freeNetworks == old(freeNetworks) + [index] && leases == old(leases) - {index}
      ensures tasks - {t} == old(tasks - {t})
      ensures if p.Stopping? then tasks == old(tasks - {t}) else t in tasks && tasks[t] == Releasing(p.id)
    {
      LiveStep(lives, View(), history, DropLease(t));
      freeNetworks := freeNetworks + [index];
      leases := leases - {index};
      tasks := if p.Stopping? then tasks - {t} else tasks[t := Releasing(p.id)];
      history := history + [DropLease(t)];
    }

    /** The reservation is dropped. */
    method ReturnReservation(ghost t: TaskId, id: WorkerId)
      requires Valid() && t in tasks && (tasks[t] == Releasing(id) || tasks[t] == Inserted(id))
      modifies this`starting, this`tasks, this`history
      ensures Valid() && history == old(history) + [DropReservation(t)]
      ensures View() == Gone(old(View()).(starting := old(starting) - {id}), t)
    {
      LiveStep(lives, View(), history, DropReservation(t));
      starting := starting - {id};
      tasks := tasks - {t};
      history := history + [DropReservation(t)];
    }

    /** The finished worker is listed; the duplicate check finds nothing. */
    method ListWorker(ghost t: TaskId, id: WorkerId, index: nat, run: nat)
      requires Valid() && t in tasks && tasks[t] == Building(id, index, run, 5)
      modifies this`workers, this`leases, this`tasks, this`history
      ensures Valid() && history == old(history) + [Insert(t)] && id !in old(workers)
      ensures View() == At(old(View()).(workers := old(workers)[id := Process(index, run)],
                                        leases := old(leases)[index := Lease(Running(id), run)]), t, Inserted(id))
    {
      LiveInsertion(lives, View(), history, t);
      workers := workers[id := Process(index, run)];
      leases := leases[index := Lease(Running(id), run)];
      tasks := tasks[t := Inserted(id)];
      history := history + [Insert(t)];
    }

    /** The first half of `stop`: the worker is taken out of the map. */
    method TakeOut(ghost t: TaskId, id: WorkerId, ghost index: nat, ghost run: nat)
      requires Valid() && t in tasks && tasks[t] == Accepted && id in workers && workers[id] == Process(index, run)
      modifies this`workers, this`leases, this`tasks, this`history
      ensures Valid() && history == old(history) + [BeginStop(t, id)]
      ensures workers == old(workers) - {id} && leases == old(leases)[index := Lease(Client(t), run)]
      ensures t in tasks && tasks[t] == Stopping(id, index, run, StopList(id, index, run)) && tasks - {t} == old(tasks - {t})
    {
      LiveStep(lives, View(), history, BeginStop(t, id));
      UpdateAndRemove(tasks, t, Stopping(id, index, run, StopList(id, index, run)));
      workers := workers - {id};
      leases := leases[index := Lease(Client(t), run)];
      tasks := tasks[t := Stopping(id, index, run, StopList(id, index, run))];
      history := history + [BeginStop(t, id)];
    }

    /** A client that asks for a start during shutdown. */
    method TurnAway(ghost t: TaskId, ghost id: WorkerId)
      requires Valid() && t in tasks && tasks[t] == Accepted && closing
      modifies this`tasks, this`history
      ensures Valid() && tasks == old(tasks - {t}) && history == old(history) + [BeginStart(t, id)]
    {
      LiveStep(lives, View(), history, BeginStart(t, id));
      tasks := tasks - {t};
      history := history + [BeginStart(t, id)];
    }

    /** A client that asks to stop an unknown worker. */
    method StopNothing(ghost t: TaskId, ghost id: WorkerId)
      requires Valid() && t in tasks && tasks[t] == Accepted && id !in workers
      modifies this`tasks, this`history
      ensures Valid() && tasks == old(tasks - {t}) && history == old(history) + [BeginStop(t, id)]
    {
      LiveStep(lives, View(), history, BeginStop(t, id));
      tasks := tasks - {t};
      history := history + [BeginStop(t, id)];
    }

    /** A client ends without having changed anything. */
    method EndClient(ghost t: TaskId)
      requires Valid() && Enabled(View(), Leave(t))
      modifies this`tasks, this`history
      ensures Valid() && tasks == old(tasks) - {t} && history == old(history) + [Leave(t)]
    {
      LiveStep(lives, View(), history, Leave(t));
      tasks := tasks - {t};
      history := history + [Leave(t)];
    }

    // ----- the set-up of a worker and its exits -----

    /** A start gave up at `exit` and has gone through the clean-up that stands there. */
    ghost predicate GaveUp(t: TaskId, id: WorkerId, index: nat, run: nat, before: set<Resource>, stubborn: set<Resource>,
                           exit: Exit)
      reads this
    {
      && t in tasks && tasks[t] == Unwinding(id, index, run, [])
      && resources == Remaining(AtExit(before, exit, id, index, run), CleanUpList(exit, id, index, run), stubborn)
    }

    /** A start has made its first `k` parts. */
    ghost predicate HasMade(t: TaskId, id: WorkerId, index: nat, run: nat, before: set<Resource>, k: nat)
      requires k <= 5
      reads this
    {
      t in tasks && tasks[t] == Building(id, index, run, k) && resources == WithParts(before, id, index, run, k)
    }

    /** Only the directory exists. */
    method CleanUpFiles(ghost t: TaskId, ghost p: Phase, id: WorkerId, stubborn: set<Resource>, ghost goal: set<Resource>)
      requires Valid() && IsStubborn(stubborn) && p.CleansUp() && CleaningUp(t, p, 0, stubborn, goal)
      requires |p.todo| == 1 && p.todo[0] == Directory(id)
      modifies this`resources, this`tasks, this`history
      ensures Valid() && t in tasks && tasks[t] == p.(todo := []) && resources == goal && tasks - {t} == old(tasks - {t})
    {
      Remove(t, p, 0, Directory(id), stubborn, goal);
      CleanUpEnds(t, p, stubborn, goal);
    }

    /** A network, or parts of one, but no process. */
    method CleanUpNetwork(ghost t: TaskId, ghost p: Phase, id: WorkerId, index: nat, stubborn: set<Resource>,
                          ghost goal: set<Resource>)
      requires Valid() && IsStubborn(stubborn) && p.CleansUp() && CleaningUp(t, p, 0, stubborn, goal)
      requires |p.todo| == 2 && p.todo[0] == Network(index) && p.todo[1] == Directory(id)
      modifies this`resources, this`tasks, this`history
      ensures Valid() && t in tasks && tasks[t] == p.(todo := []) && resources == goal && tasks - {t} == old(tasks - {t})
    {
      Remove(t, p, 0, Network(index), stubborn, goal);
      Remove(t, p, 1, Directory(id), stubborn, goal);
      CleanUpEnds(t, p, stubborn, goal);
    }

    /** The tunnel process runs, unwatched. */
    method CleanUpTunnel(ghost t: TaskId, ghost p: Phase, id: WorkerId, index: nat, run: nat, stubborn: set<Resource>,
                         ghost goal: set<Resource>)
      requires Valid() && IsStubborn(stubborn) && p.CleansUp() && CleaningUp(t, p, 0, stubborn, goal)
      requires |p.todo| == 3 && p.todo[0] == OpenVpn(run) && p.todo[1] == Network(index) && p.todo[2] == Directory(id)
      modifies this`resources, this`tasks, this`history
      ensures Valid() && t in tasks && tasks[t] == p.(todo := []) && resources == goal && tasks - {t} == old(tasks - {t})
    {
      Remove(t, p, 0, OpenVpn(run), stubborn, goal);
      Remove(t, p, 1, Network(index), stubborn, goal);
      Remove(t, p, 2, Directory(id), stubborn, goal);
      CleanUpEnds(t, p, stubborn, goal);
    }

    /** The tunnel process runs and is watched. */
    method CleanUpMonitored(ghost t: TaskId, ghost p: Phase, id: WorkerId, index: nat, run: nat, stubborn: set<Resource>,
                            ghost goal: set<Resource>)
      requires Valid() && IsStubborn(stubborn) && p.CleansUp() && CleaningUp(t, p, 0, stubborn, goal)
      requires |p.todo| == 4 && p.todo[0] == Monitor(run) && p.todo[1] == OpenVpn(run)
      requires p.todo[2] == Network(index) && p.todo[3] == Directory(id)
      modifies this`resources, this`tasks, this`history
      ensures Valid() && t in tasks && tasks[t] == p.(todo := []) && resources == goal && tasks - {t} == old(tasks - {t})
    {
      Remove(t, p, 0, Monitor(run), stubborn, goal);
      Remove(t, p, 1, OpenVpn(run), stubborn, goal);
      Remove(t, p, 2, Network(index), stubborn, goal);
      Remove(t, p, 3, Directory(id), stubborn, goal);
      CleanUpEnds(t, p, stubborn, goal);
    }

    /** Everything exists. */
    method StopProcess(ghost t: TaskId, ghost p: Phase, id: WorkerId, index: nat, run: nat, stubborn: set<Resource>,
                       ghost goal: set<Resource>)
      requires Valid() && IsStubborn(stubborn) && p.CleansUp() && CleaningUp(t, p, 0, stubborn, goal)
      requires |p.todo| == 5 && p.todo[0] == Monitor(run) && p.todo[1] == Socks(run) && p.todo[2] == OpenVpn(run)
      requires p.todo[3] == Network(index) && p.todo[4] == Directory(id)
      modifies this`resources, this`tasks, this`history
      ensures Valid() && t in tasks && tasks[t] == p.(todo := []) && resources == goal && tasks - {t} == old(tasks - {t})
    {
      Remove(t, p, 0, Monitor(run), stubborn, goal);
      Remove(t, p, 1, Socks(run), stubborn, goal);
      Remove(t, p, 2, OpenVpn(run), stubborn, goal);
      Remove(t, p, 3, Network(index), stubborn, goal);
      Remove(t, p, 4, Directory(id), stubborn, goal);
      CleanUpEnds(t, p, stubborn, goal);
    }

    /** The exits of `start` once it has an index, each with its own clean-up. */
    method Abandon(ghost t: TaskId, id: WorkerId, index: nat, run: nat, exit: Exit, stubborn: set<Resource>,
                   ghost before: set<Resource>)
      requires Valid() && IsStubborn(stubborn) && HasMade(t, id, index, run, before, PartsAt(exit)) && !exit.LateDuplicate?
      requires exit.StoppedAfterFiles? || exit.StoppedAfterNetwork? || exit.StoppedAtEnd? ==> closing
      modifies this`resources, this`tasks, this`history
      ensures Valid() && GaveUp(t, id, index, run, before, stubborn, exit) && tasks - {t} == old(tasks - {t})
    {
      CleanUpItems(exit, id, index, run);
      ghost var p, goal := GiveUp(t, id, index, run, exit, stubborn, before);
      match exit
      case DirectoryFailed => CleanUpEnds(t, p, stubborn, goal);
      case FilesFailed => CleanUpFiles(t, p, id, stubborn, goal);
      case StoppedAfterFiles => CleanUpFiles(t, p, id, stubborn, goal);
      case NetworkFailed(_) => CleanUpNetwork(t, p, id, index, stubborn, goal);
      case StoppedAfterNetwork => CleanUpNetwork(t, p, id, index, stubborn, goal);
      case OpenVpnNotSpawned => CleanUpNetwork(t, p, id, index, stubborn, goal);
      case OpenVpnNotReady => CleanUpTunnel(t, p, id, index, run, stubborn, goal);
      case RoutesNotReady => CleanUpTunnel(t, p, id, index, run, stubborn, goal);
      case SocksNotSpawned => CleanUpMonitored(t, p, id, index, run, stubborn, goal);
      case SocketNotReady => StopProcess(t, p, id, index, run, stubborn, goal);
      case StoppedAtEnd => StopProcess(t, p, id, index, run, stubborn, goal);
      case LateDuplicate => assert false;
    }

    /** Directory and files of the worker. */
    method PrepareFiles(ghost t: TaskId, id: WorkerId, index: nat, run: nat, o: Outcomes, stubborn: set<Resource>,
                        ghost before: set<Resource>)
      returns (error: Option<WorkerError>, ghost exit: Exit)
      requires Valid() && IsStubborn(stubborn) && HasMade(t, id, index, run, before, 0)
      modifies this`resources, this`tasks, this`history, this`closing
      ensures Valid() && tasks - {t} == old(tasks - {t})
      ensures error == o.FilesError(Directory(id) in before)
      ensures error.None? ==> HasMade(t, id, index, run, before, 1) && closing == old(closing)
      ensures error.Some? ==> GaveUp(t, id, index, run, before, stubborn, exit)
      ensures error.Some? ==> exit == DirectoryFailed || Directory(id) !in before
    {
      error, exit := None, DirectoryFailed;
      if Directory(id) in resources {
        Abandon(t, id, index, run, DirectoryFailed, stubborn, before);
        return Some(Duplicate), DirectoryFailed;
      }
      if o.directory.Some? {
        Abandon(t, id, index, run, DirectoryFailed, stubborn, before);
        return o.directory, DirectoryFailed;
      }
      Make(t, id, index, run, 0, Directory(id));
      if o.files.Some? {
        Abandon(t, id, index, run, FilesFailed, stubborn, before);
        return o.files, FilesFailed;
      }
      if o.cancelledAfterFiles {
        Cancel();
        Abandon(t, id, index, run, StoppedAfterFiles, stubborn, before);
        return Some(ShuttingDown), StoppedAfterFiles;
      }
    }

    /** Namespace, interfaces and firewall of the worker. */
    method PrepareNetwork(ghost t: TaskId, id: WorkerId, index: nat, run: nat, o: Outcomes, stubborn: set<Resource>,
                          ghost before: set<Resource>)
      returns (error: Option<WorkerError>, ghost exit: Exit)
      requires Valid() && IsStubborn(stubborn) && HasMade(t, id, index, run, before, 1)
      modifies this`resources, this`tasks, this`history, this`closing
      ensures Valid() && tasks - {t} == old(tasks - {t})
      ensures error == o.NetworkError(Network(index) in before)
      ensures error.None? ==> HasMade(t, id, index, run, before, 2) && closing == old(closing)
      ensures error.Some? ==> GaveUp(t, id, index, run, before, stubborn, exit) && exit != DirectoryFailed
    {
      error, exit := None, FilesFailed;
      WithPartsAre(before, id, index, run, 1, Network(index));
      PartIsAmong(id, index, run, 1, Network(index));
      if Network(index) in resources || !o.network {
        Abandon(t, id, index, run, NetworkFailed(o.networkPartly), stubborn, before);
        return Some(CommandFailed), NetworkFailed(o.networkPartly);
      }
      Make(t, id, index, run, 1, Network(index));
      if o.cancelledAfterNetwork {
        Cancel();
        Abandon(t, id, index, run, StoppedAfterNetwork, stubborn, before);
        return Some(ShuttingDown), StoppedAfterNetwork;
      }
    }

    /** The tunnel process, its routes and its monitor. */
    method StartTunnel(ghost t: TaskId, id: WorkerId, index: nat, run: nat, o: Outcomes, stubborn: set<Resource>,
                       ghost before: set<Resource>)
      returns (error: Option<WorkerError>, ghost exit: Exit)
      requires Valid() && IsStubborn(stubborn) && HasMade(t, id, index, run, before, 2)
      modifies this`resources, this`tasks, this`history, this`closing
      ensures Valid() && tasks - {t} == old(tasks - {t})
      ensures error == o.TunnelError()
      ensures error.None? ==> HasMade(t, id, index, run, before, 4) && closing == old(closing)
      ensures error.Some? ==> GaveUp(t, id, index, run, before, stubborn, exit) && exit != DirectoryFailed
    {
      error, exit := None, OpenVpnNotSpawned;
      if !o.openvpnSpawned {
        Abandon(t, id, index, run, OpenVpnNotSpawned, stubborn, before);
        return Some(OpenVpnSpawn), OpenVpnNotSpawned;
      }
      Make(t, id, index, run, 2, OpenVpn(run));
      if !o.openvpnReady {
        Abandon(t, id, index, run, OpenVpnNotReady, stubborn, before);
        return Some(OpenVpnFailed), OpenVpnNotReady;
      }
      if !o.routesReady {
        Abandon(t, id, index, run, RoutesNotReady, stubborn, before);
        return Some(WorkerNotReady), RoutesNotReady;
      }
      Make(t, id, index, run, 3, Monitor(run));
    }

    /** The SOCKS process and the last look at the shutdown token. */
    method StartSocks(ghost t: TaskId, id: WorkerId, index: nat, run: nat, o: Outcomes, stubborn: set<Resource>,
                      ghost before: set<Resource>)
      returns (error: Option<WorkerError>, ghost exit: Exit)
      requires Valid() && IsStubborn(stubborn) && HasMade(t, id, index, run, before, 4)
      modifies this`resources, this`tasks, this`history, this`closing
      ensures Valid() && tasks - {t} == old(tasks - {t})
      ensures error == o.SocksError()
      ensures error.None? ==> HasMade(t, id, index, run, before, 5) && closing == old(closing)
      ensures error.Some? ==> GaveUp(t, id, index, run, before, stubborn, exit) && exit != DirectoryFailed
    {
      error, exit := None, SocksNotSpawned;
      if !o.socksSpawned {
        Abandon(t, id, index, run, SocksNotSpawned, stubborn, before);
        return Some(WorkerSpawn), SocksNotSpawned;
      }
      Make(t, id, index, run, 4, Socks(run));
      if !o.socketReady {
        Abandon(t, id, index, run, SocketNotReady, stubborn, before);
        return Some(WorkerNotReady), SocketNotReady;
      }
      if o.cancelledAtEnd {
        Cancel();
        Abandon(t, id, index, run, StoppedAtEnd, stubborn, before);
        return Some(ShuttingDown), StoppedAtEnd;
      }
    }

    /** Everything between the network index and the workers map. */
    method SetUp(ghost t: TaskId, id: WorkerId, index: nat, run: nat, o: Outcomes, stubborn: set<Resource>,
                 ghost before: set<Resource>)
      returns (error: Option<WorkerError>, ghost exit: Exit)
      requires Valid() && IsStubborn(stubborn) && HasMade(t, id, index, run, before, 0)
      modifies this`resources, this`tasks, this`history, this`closing
      ensures Valid() && tasks - {t} == old(tasks - {t})
      ensures error == o.SetUpError(Directory(id) in before, Network(index) in before)
      ensures error.None? ==> HasMade(t, id, index, run, before, 5) && closing == old(closing)
      ensures error.Some? ==> GaveUp(t, id, index, run, before, stubborn, exit)
      ensures error.Some? ==> exit == DirectoryFailed || Directory(id) !in before
    {
      error, exit := PrepareFiles(t, id, index, run, o, stubborn, before);
      if error.None? { error, exit := PrepareNetwork(t, id, index, run, o, stubborn, before); }
      if error.None? { error, exit := StartTunnel(t, id, index, run, o, stubborn, before); }
      if error.None? { error, exit := StartSocks(t, id, index, run, o, stubborn, before); }
    }

    /** The end of a failed set-up. */
    method ReturnFailed(ghost t: TaskId, id: WorkerId, index: nat, ghost run: nat, ghost exit: Exit,
                        ghost stubborn: set<Resource>, ghost before: set<Resource>)
      requires Valid() && GaveUp(t, id, index, run, before, stubborn, exit) && RunsAreBelow(before, run)
      requires exit == DirectoryFailed || Directory(id) !in before
      modifies this`freeNetworks, this`leases, this`tasks, this`history
      ensures Valid() && history == old(history) + [DropLease(t)] && Undone(before, resources, index, stubborn)
      ensures View() == At(old(View()).(free := old(freeNetworks) + [index], leases := old(leases) - {index}), t, Releasing(id))
    {
      ExitUndoes(before, exit, id, index, run, stubborn);
      ghost var was := tasks;
      ReturnIndex(t, Unwinding(id, index, run, []), index);
      SameTasks(was, tasks, t, Releasing(id));
    }

    /** The index and the set-up under it. */
    method DrawAndSetUp(ghost t: TaskId, id: WorkerId, o: Outcomes, stubborn: set<Resource>)
      returns (index: nat, run: nat, error: Option<WorkerError>, ghost exit: Exit)
      requires Valid() && IsStubborn(stubborn) && t in tasks && tasks[t] == Admitted(id)
      modifies this`freeNetworks, this`nextNetwork, this`runs, this`resources, this`closing,
               this`leases, this`tasks, this`history
      ensures Valid() && index == DrawnIndex(old(View())) && index !in old(leases) && run == old(runs)
      ensures View() == Leased(old(View()), t, View()) && tasks - {t} == old(tasks - {t})
      ensures error == SetUpError(old(View()), id, o)
      ensures error.None? ==> HasMade(t, id, index, run, old(resources), 5) && closing == old(closing)
      ensures error.Some? ==> GaveUp(t, id, index, run, old(resources), stubborn, exit)
      ensures error.Some? ==> exit == DirectoryFailed || Directory(id) !in old(resources)
      ensures RunsAreBelow(old(resources), run)
    {
      ghost var before, was := resources, tasks;
      index, run := AllocateNetwork(t);
      UpdateAndRemove(was, t, Building(id, index, run, 0));
      assert WithParts(before, id, index, run, 0) == before;
      error, exit := SetUp(t, id, index, run, o, stubborn, before);
    }

    /** Everything that is gone in the end was gone before the index was free again. */
    ghost predicate CleanedFirst(cleaned: (State, seq<Event>), index: nat, rest: seq<Event>)
      reads this
    {
      && cleaned in lives && history == cleaned.1 + rest
      && cleaned.0.world == resources && index in cleaned.0.leases && freeNetworks == cleaned.0.free + [index]
    }

    /** `start` from the network index on: a listed worker with all its parts, or everything undone
        before the index is free again. */
    method BuildWorker(ghost t: TaskId, id: WorkerId, o: Outcomes, stubborn: set<Resource>)
      returns (error: Option<WorkerError>, ghost cleaned: (State, seq<Event>))
      requires Valid() && IsStubborn(stubborn) && t in tasks && tasks[t] == Admitted(id)
      modifies this`workers, this`freeNetworks, this`nextNetwork, this`runs, this`resources, this`closing,
               this`leases, this`tasks, this`history
      ensures Valid()
      ensures error == SetUpError(old(View()), id, o)
      ensures error.None? ==> View() == At(WithWorker(old(View()), id), t, Inserted(id))
      ensures error.Some? ==> View() == At(Reverted(old(View()), resources, closing), t, Releasing(id))
      ensures error.Some? ==> Undone(old(resources), resources, DrawnIndex(old(View())), stubborn)
      ensures error.Some? ==> CleanedFirst(cleaned, DrawnIndex(old(View())), [DropLease(t)])
    {
      ghost var s := View();
      var index, run;
      ghost var exit;
      index, run, error, exit := DrawAndSetUp(t, id, o, stubborn);
      cleaned := (View(), history);
      if error.None? {
        LeaseIsListed(s, t, id, View());
        ListWorker(t, id, index, run);
      } else {
        LeaseIsReturned(s, t, id, View());
        ReturnFailed(t, id, index, run, exit, stubborn, s.world);
      }
    }

    // ----- whole calls -----

    /** `reserve`, uninterrupted: a new reservation, or nothing. */
    method Reserve(ghost t: TaskId, id: WorkerId) returns (error: Option<WorkerError>)
      requires Valid() && t in tasks && tasks[t] == Accepted && !closing
      modifies this`starting, this`tasks, this`history
      ensures Valid()
      ensures error == AdmitError(old(View()), id)
      ensures error.None? ==> View() == At(old(View()).(starting := old(starting) + {id}), t, Admitted(id))
      ensures error.Some? ==> View() == Gone(old(View()), t)
    {
      ghost var was := tasks;
      SetRoundTrip(starting, id);
      var inserted := ReserveInsert(t, id);
      if !inserted { return Some(Duplicate); }
      var running := ReadRunning(t, id);
      if running.None? {
        ReturnReservation(t, id);
        return Some(Duplicate);
      }
      var admitted := ReadReserved(t, id, running.value);
      if !admitted {
        ReturnReservation(t, id);
        return Some(Capacity);
      }
      SameTasks(was, tasks, t, Admitted(id));
      return None;
    }

    /** `start` with a reservation. */
    method StartAdmitted(ghost t: TaskId, id: WorkerId, o: Outcomes, stubborn: set<Resource>)
      returns (error: Option<WorkerError>, ghost cleaned: Option<(State, seq<Event>)>)
      requires Valid() && IsStubborn(stubborn) && t in tasks && tasks[t] == Admitted(id)
      modifies this`starting, this`workers, this`freeNetworks, this`nextNetwork, this`runs, this`resources, this`closing,
               this`leases, this`tasks, this`history
      ensures Valid()
      ensures error == if o.profile.Some? then o.profile else SetUpError(old(View()), id, o)
      ensures error.None? ==> View() == Gone(WithWorker(old(View()), id).(starting := old(starting) - {id}), t)
      ensures error.Some? && cleaned.None? ==> View() == Gone(old(View()).(starting := old(starting) - {id}), t)
      ensures error.Some? && cleaned.Some? ==>
                && View() == Gone(Reverted(old(View()), resources, closing).(starting := old(starting) - {id}), t)
                && Undone(old(resources), resources, DrawnIndex(old(View())), stubborn)
                && CleanedFirst(cleaned.value, DrawnIndex(old(View())), [DropLease(t), DropReservation(t)])
    {
      cleaned := None;
      ghost var s := View();
      if o.profile.Some? {
        RefuseStart(t, id);
        GoneAt(s, t, Releasing(id), starting - {id});
        ReturnReservation(t, id);
        return o.profile, None;
      }
      ghost var c;
      error, c := BuildWorker(t, id, o, stubborn);
      if error.Some? {
        cleaned := Some(c);
        GoneAt(Reverted(s, resources, closing), t, Releasing(id), starting - {id});
      } else {
        GoneAt(WithWorker(s, id), t, Inserted(id), starting - {id});
      }
      ReturnReservation(t, id);
    }

    /** The beginning of `start`. */
    method Admit(ghost t: TaskId, id: WorkerId) returns (error: Option<WorkerError>)
      requires Valid() && t in tasks && tasks[t] == Accepted
      modifies this`starting, this`tasks, this`history
      ensures Valid()
      ensures error == AdmitError(old(View()), id)
      ensures error.None? ==> View() == At(old(View()).(starting := old(starting) + {id}), t, Admitted(id))
      ensures error.Some? ==> View() == Gone(old(View()), t)
    {
      if closing {
        TurnAway(t, id);
        return Some(ShuttingDown);
      }
      error := Reserve(t, id);
    }

    /** `start`, uninterrupted: one listed worker with its five parts more, or all as before. */
    method Start(ghost t: TaskId, id: WorkerId, o: Outcomes, stubborn: set<Resource>)
      returns (error: Option<WorkerError>, ghost cleaned: Option<(State, seq<Event>)>)
      requires Valid() && IsStubborn(stubborn) && t in tasks && tasks[t] == Accepted
      modifies this`starting, this`workers, this`freeNetworks, this`nextNetwork, this`runs, this`resources, this`closing,
               this`leases, this`tasks, this`history
      ensures Valid()
      ensures error == StartError(old(View()), id, o)
      ensures error.None? <==> HasRoom(old(View()), id) && IsClear(old(View()), id) && o.AllGood()
      ensures error.None? ==> View() == Gone(WithWorker(old(View()), id), t)
      ensures error.Some? && cleaned.None? ==> View() == Gone(old(View()), t)
      ensures error.Some? && cleaned.Some? ==>
                && View() == Gone(Reverted(old(View()), resources, closing), t)
                && Undone(old(resources), resources, DrawnIndex(old(View())), stubborn)
                && CleanedFirst(cleaned.value, DrawnIndex(old(View())), [DropLease(t), DropReservation(t)])
      // if every clean-up succeeds and met no leftover, nothing at all has changed
      ensures error.Some? && stubborn == {} && Network(DrawnIndex(old(View()))) !in old(resources) ==>
                resources == old(resources)
    {
      cleaned := None;
      ghost var s := View();
      error := Admit(t, id);
      if error.None? {
        error, cleaned := StartAdmitted(t, id, o, stubborn);
        ReservationPasses(s, t, id, resources, closing);
        UndoneMeans(s.world, resources, DrawnIndex(s), stubborn);
      }
    }

    /** `stop`, uninterrupted: the worker is gone, and its index is free once its parts are cleaned up. */
    method Stop(ghost t: TaskId, id: WorkerId, stubborn: set<Resource>)
      returns (found: bool, ghost cleaned: (State, seq<Event>))
      requires Valid() && IsStubborn(stubborn) && t in tasks && tasks[t] == Accepted
      modifies this`workers, this`freeNetworks, this`resources, this`leases, this`tasks, this`history
      ensures Valid() && tasks == old(tasks - {t}) && (found <==> id in old(workers))
      ensures !found ==> workers == old(workers) && resources == old(resources) && leases == old(leases)
      ensures !found ==> freeNetworks == old(freeNetworks)
      ensures found ==>
                var w := old(workers)[id];
                && workers == old(workers) - {id} && leases == old(leases) - {w.index}
                && resources == Remaining(old(resources), StopList(id, w.index, w.run), stubborn)
                && freeNetworks == old(freeNetworks) + [w.index]
                && cleaned in lives && history == cleaned.1 + [DropLease(t)]
                && cleaned.0.world == resources && cleaned.0.free == old(freeNetworks)
    {
      found := id in workers;
      cleaned := (View(), history);
      if !found {
        StopNothing(t, id);
      } else {
        var w := workers[id];
        UpdateAndRemove(leases, w.index, Lease(Client(t), w.run));
        TakeOut(t, id, w.index, w.run);
        ghost var p := Stopping(id, w.index, w.run, StopList(id, w.index, w.run));
        WorkedIsRemaining(resources, p.todo, 0, stubborn);
        assert p.todo[0..] == p.todo;
        StopProcess(t, p, id, w.index, w.run, stubborn, Remaining(resources, p.todo, stubborn));
        cleaned := (View(), history);
        ReturnIndex(t, Stopping(id, w.index, w.run, []), w.index);
      }
    }
  }

  /** What is proved of reachable states holds of every manager object. */
  lemma ValidIsReachable(m: WorkerManager)
    requires m.Valid()
    ensures LedTo(m.maxWorkers, m.history, m.View()) && Reachable(m.View())
  {
    assert LedTo(m.View().maxWorkers, m.history, m.View());
  }
}
