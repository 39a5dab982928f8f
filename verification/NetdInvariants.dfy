/** What every interleaving of the worker manager keeps. */
module NetdInvariants {
  import opened Wrappers
  import opened NetdProtocol

  // ----- reservations -----

  predicate Holds(s: State, t: TaskId, id: WorkerId) {
    t in s.tasks && s.tasks[t].HasReservation() && s.tasks[t].id == id
  }

  /** `starting` is exactly the set of reserved ids, and each has one holder. */
  ghost predicate ReservationInv(s: State) {
    && (forall t, id :: Holds(s, t, id) ==> id in s.starting)
    && (forall id :: id in s.starting ==> exists t :: Holds(s, t, id))
    && (forall t, u, id :: Holds(s, t, id) && Holds(s, u, id) ==> t == u)
  }

  /** A start that has read the workers map stays the only one able to insert its id. */
  ghost predicate CheckedInv(s: State) {
    forall t :: t in s.tasks && s.tasks[t].Checked() ==> s.tasks[t].id !in s.workers
  }

  // ----- network leases -----

  /** Task `t` holds the lease of `index` for `run`. */
  predicate HasIndex(s: State, t: TaskId, index: nat, run: nat) {
    t in s.tasks && s.tasks[t].HasLease() && s.tasks[t].index == index && s.tasks[t].run == run
  }

  predicate LeaseIsHeld(s: State, index: nat, lease: Lease) {
    match lease.owner
    case Client(t) => HasIndex(s, t, index, lease.run)
    case Running(id) => id in s.workers && s.workers[id] == Process(index, lease.run)
  }

  /** Each lease value is held by exactly the task or listed worker that it names. */
  ghost predicate LeaseInv(s: State) {
    && (forall i :: i in s.leases ==> LeaseIsHeld(s, i, s.leases[i]))
    && (forall t :: t in s.tasks && s.tasks[t].HasLease() ==>
          s.tasks[t].index in s.leases && s.leases[s.tasks[t].index] == Lease(Client(t), s.tasks[t].run))
    && (forall id :: id in s.workers ==>
          s.workers[id].index in s.leases && s.leases[s.workers[id].index] == Lease(Running(id), s.workers[id].run))
  }

  /** Live leases belong to different runs, all of them begun. */
  ghost predicate RunInv(s: State) {
    && (forall i :: i in s.leases ==> s.leases[i].run < s.runs)
    && (forall i, j :: i in s.leases && j in s.leases && s.leases[i].run == s.leases[j].run ==> i == j)
  }

  /** The issued indices 1..next-1 are the disjoint union of live leases and the free list. */
  ghost predicate PartitionInv(s: State) {
    && 1 <= s.next <= MAX_INDEX + 1
    && NoRepeats(s.free)
    && (forall i :: i in s.free ==> 1 <= i < s.next && i !in s.leases)
    && (forall i :: i in s.leases ==> 1 <= i < s.next)
    && (forall i :: 1 <= i < s.next ==> i in s.free || i in s.leases)
  }

  // ----- capacity -----

  predicate CanInsert(p: Phase, maxWorkers: nat) {
    (p.Counted? && p.running < maxWorkers) || p.Admitted? || p.Building?
  }

  /** Starts that can still insert a worker. */
  function MayInsert(s: State): set<TaskId> {
    set t | t in s.tasks && CanInsert(s.tasks[t], s.maxWorkers)
  }

  ghost predicate CapacityInv(s: State) {
    && IsLimit(s.maxWorkers)
    && |s.tasks| <= MAX_CLIENTS
    && |s.workers| + |MayInsert(s)| <= s.maxWorkers + MAX_CLIENTS - 1
  }

  // ----- preservation: frames -----

  predicate SamePhase(s: State, s': State, t: TaskId) {
    (t in s'.tasks <==> t in s.tasks) && (t in s.tasks ==> s'.tasks[t] == s.tasks[t])
  }

  lemma AdmissionOthers(s: State, e: Event, t: TaskId)
    requires Enabled(s, e) && e.Admits() && e.task != t
    ensures SamePhase(s, ApplyAdmission(s, e), t)
  {
  }

  lemma BuildingOthers(s: State, e: Event, t: TaskId)
    requires Enabled(s, e) && e.Builds() && e.task != t
    ensures SamePhase(s, ApplyBuilding(s, e), t)
  {
  }

  lemma ReleaseOthers(s: State, e: Event, t: TaskId)
    requires Enabled(s, e) && e.Releases() && e.task != t
    ensures SamePhase(s, ApplyRelease(s, e), t)
  {
  }

  /** A step changes the phase of no other task. */
  lemma OtherTasksStay(s: State, e: Event, t: TaskId)
    requires Enabled(s, e) && (e.ByTask() ==> e.task != t)
    ensures SamePhase(s, Apply(s, e), t)
  {
    if e.Admits() { AdmissionOthers(s, e, t); }
    else if e.Builds() { BuildingOthers(s, e, t); }
    else if e.Releases() { ReleaseOthers(s, e, t); }
  }

  /** What admission steps leave alone. */
  predicate SameHoldings(s: State, s': State) {
    && s'.workers == s.workers && s'.leases == s.leases && s'.free == s.free && s'.next == s.next
    && s'.runs == s.runs && s'.world == s.world && s'.maxWorkers == s.maxWorkers
  }

  lemma AdmissionFrame(s: State, e: Event)
    requires Enabled(s, e) && e.Admits()
    ensures SameHoldings(s, ApplyAdmission(s, e))
  {
  }

  lemma BuildingFrame(s: State, e: Event)
    requires Enabled(s, e) && e.Builds()
    ensures var s' := ApplyBuilding(s, e);
            s'.starting == s.starting && s'.maxWorkers == s.maxWorkers
  {
  }

  lemma BuildingKeys(s: State, e: Event)
    requires Enabled(s, e) && e.Builds()
    ensures ApplyBuilding(s, e).tasks.Keys == s.tasks.Keys
  {
    forall t ensures t in ApplyBuilding(s, e).tasks.Keys <==> t in s.tasks.Keys {
      if t != e.task { BuildingOthers(s, e, t); }
    }
  }

  lemma ReleaseFrame(s: State, e: Event)
    requires Enabled(s, e) && e.Releases()
    ensures var s' := ApplyRelease(s, e);
            && s'.next == s.next && s'.runs == s.runs && s'.maxWorkers == s.maxWorkers
            && s'.workers.Keys <= s.workers.Keys && (!e.DropReservation? ==> s'.starting == s.starting)
  {
  }

  /** Only `Shutdown` and `Join` touch the two flags. */
  lemma FlagsStay(s: State, e: Event)
    requires Enabled(s, e)
    ensures Apply(s, e).joined == (s.joined || e.Join?) && Apply(s, e).closing == (s.closing || e.Shutdown?)
  {
    if e.Builds() { BuildingFlags(s, e); }
  }

  lemma BuildingFlags(s: State, e: Event)
    requires Enabled(s, e) && e.Builds()
    ensures ApplyBuilding(s, e).joined == s.joined && ApplyBuilding(s, e).closing == s.closing
  {
  }

  // ----- preservation: reservations -----

  /** Only `BeginStart` creates a holder, and only of an id that had none. */
  lemma HolderWasHolder(s: State, e: Event, t: TaskId, id: WorkerId)
    requires Enabled(s, e) && Holds(Apply(s, e), t, id)
    ensures Holds(s, t, id) || (e == BeginStart(t, id) && id !in s.starting)
  {
    if !e.ByTask() || e.task != t { OtherTasksStay(s, e, t); }
  }

  /** Only `DropReservation` ends one. */
  lemma HolderStays(s: State, e: Event, t: TaskId, id: WorkerId)
    requires Enabled(s, e) && Holds(s, t, id) && e != DropReservation(t)
    ensures Holds(Apply(s, e), t, id)
  {
    if !e.ByTask() || e.task != t { OtherTasksStay(s, e, t); }
  }

  lemma StartingChanges(s: State, e: Event)
    requires Enabled(s, e)
    ensures Apply(s, e).starting ==
            if e.BeginStart? && !s.closing then s.starting + {e.id}
            else if e.DropReservation? then s.starting - {s.tasks[e.task].id} else s.starting
  {
    if e.Builds() { BuildingFrame(s, e); } else if e.Releases() { ReleaseFrame(s, e); }
  }

  lemma NewHolder(s: State, e: Event)
    requires Enabled(s, e) && e.BeginStart? && !s.closing && e.id !in s.starting
    ensures Holds(Apply(s, e), e.task, e.id)
  {
  }

  lemma DroppedHolder(s: State, e: Event)
    requires Enabled(s, e) && e.DropReservation?
    ensures Holds(s, e.task, s.tasks[e.task].id) && forall id :: !Holds(Apply(s, e), e.task, id)
  {
  }

  lemma HoldersAreReserved(s: State, e: Event, t: TaskId, id: WorkerId)
    requires ReservationInv(s) && Enabled(s, e) && Holds(Apply(s, e), t, id)
    ensures id in Apply(s, e).starting
  {
    HolderWasHolder(s, e, t, id);
    StartingChanges(s, e);
    if e.DropReservation? { DroppedHolder(s, e); }
  }

  lemma HoldersAreUnique(s: State, e: Event, t: TaskId, u: TaskId, id: WorkerId)
    requires ReservationInv(s) && Enabled(s, e) && Holds(Apply(s, e), t, id) && Holds(Apply(s, e), u, id)
    ensures t == u
  {
    HolderWasHolder(s, e, t, id);
    HolderWasHolder(s, e, u, id);
  }

  lemma ReservedAreHeld(s: State, e: Event, id: WorkerId)
    requires ReservationInv(s) && Enabled(s, e) && id in Apply(s, e).starting
    ensures exists t :: Holds(Apply(s, e), t, id)
  {
    StartingChanges(s, e);
    if id in s.starting {
      var t :| Holds(s, t, id);
      HolderStays(s, e, t, id);
    } else {
      NewHolder(s, e);
    }
  }

  lemma ReservationKept(s: State, e: Event)
    requires ReservationInv(s) && Enabled(s, e)
    ensures ReservationInv(Apply(s, e))
  {
    var s' := Apply(s, e);
    forall t, id | Holds(s', t, id) ensures id in s'.starting { HoldersAreReserved(s, e, t, id); }
    forall id | id in s'.starting ensures exists t :: Holds(s', t, id) { ReservedAreHeld(s, e, id); }
    forall t, u, id | Holds(s', t, id) && Holds(s', u, id) ensures t == u { HoldersAreUnique(s, e, t, u, id); }
  }

  /** The workers map grows only by `Insert`. */
  lemma WorkersChange(s: State, e: Event)
    requires Enabled(s, e)
    ensures Apply(s, e).workers.Keys <= s.workers.Keys + if e.Insert? then {s.tasks[e.task].id} else {}
  {
    if e.Admits() { AdmissionFrame(s, e); } else if e.Releases() { ReleaseFrame(s, e); }
  }

  lemma OwnAdmissionChecked(s: State, e: Event)
    requires Enabled(s, e) && e.Admits() && e.task in ApplyAdmission(s, e).tasks && ApplyAdmission(s, e).tasks[e.task].Checked()
    ensures e.task in s.tasks && s.tasks[e.task].HasReservation() && ApplyAdmission(s, e).tasks[e.task].id == s.tasks[e.task].id
    ensures s.tasks[e.task].Checked() || (e.ReadWorkers? && s.tasks[e.task].id !in s.workers)
  {
  }

  lemma OwnBuildingChecked(s: State, e: Event)
    requires Enabled(s, e) && e.Builds() && ApplyBuilding(s, e).tasks[e.task].Checked()
    ensures s.tasks[e.task].Checked() && !e.Insert? && ApplyBuilding(s, e).tasks[e.task].id == s.tasks[e.task].id
  {
  }

  lemma CheckedBefore(s: State, e: Event, t: TaskId)
    requires Enabled(s, e) && t in Apply(s, e).tasks && Apply(s, e).tasks[t].Checked()
    ensures t in s.tasks && s.tasks[t].HasReservation() && Apply(s, e).tasks[t].id == s.tasks[t].id && e != Insert(t)
    ensures s.tasks[t].Checked() || (e == ReadWorkers(t) && s.tasks[t].id !in s.workers)
  {
    if !e.ByTask() || e.task != t { OtherTasksStay(s, e, t); }
    else if e.Admits() { OwnAdmissionChecked(s, e); }
    else if e.Builds() { OwnBuildingChecked(s, e); }
  }

  lemma CheckedKept(s: State, e: Event)
    requires ReservationInv(s) && CheckedInv(s) && Enabled(s, e)
    ensures CheckedInv(Apply(s, e))
  {
    var s' := Apply(s, e);
    WorkersChange(s, e);
    forall t | t in s'.tasks && s'.tasks[t].Checked() ensures s'.tasks[t].id !in s'.workers {
      CheckedBefore(s, e, t);
      assert Holds(s, t, s.tasks[t].id);
      if e.Insert? { assert Holds(s, e.task, s.tasks[e.task].id); }
    }
  }

  // ----- preservation: leases -----

  /** Steps that move no lease. */
  lemma LeaseFrame(s: State, s': State)
    requires LeaseInv(s) && s'.leases == s.leases && s'.workers == s.workers
    requires forall t, index, run :: HasIndex(s', t, index, run) <==> HasIndex(s, t, index, run)
    ensures LeaseInv(s')
  {
    forall t | t in s'.tasks && s'.tasks[t].HasLease()
      ensures s'.tasks[t].index in s'.leases && s'.leases[s'.tasks[t].index] == Lease(Client(t), s'.tasks[t].run)
    {
      assert HasIndex(s', t, s'.tasks[t].index, s'.tasks[t].run);
    }
    forall i | i in s'.leases ensures LeaseIsHeld(s', i, s'.leases[i]) { assert LeaseIsHeld(s, i, s.leases[i]); }
  }

  predicate MovesLease(e: Event) { e.Allocate? || e.Insert? || e.DropLease? || e.BeginStop? || e.DrainOne? }

  lemma OwnIndexStays(s: State, e: Event, index: nat, run: nat)
    requires Enabled(s, e) && e.ByTask() && !MovesLease(e)
    ensures HasIndex(Apply(s, e), e.task, index, run) <==> HasIndex(s, e.task, index, run)
  {
  }

  lemma StepMovesNoLease(s: State, e: Event, t: TaskId, index: nat, run: nat)
    requires Enabled(s, e) && !MovesLease(e)
    ensures HasIndex(Apply(s, e), t, index, run) <==> HasIndex(s, t, index, run)
  {
    if e.ByTask() && e.task == t { OwnIndexStays(s, e, index, run); } else { OtherTasksStay(s, e, t); }
  }

  lemma StepKeepsLists(s: State, e: Event)
    requires Enabled(s, e) && !MovesLease(e)
    ensures Apply(s, e).leases == s.leases && Apply(s, e).workers == s.workers
  {
    if e.Admits() { AdmissionFrame(s, e); }
  }

  /** A usable index becomes the lease of the allocating task. */
  lemma AllocateEffect(s: State, t: TaskId)
    requires Enabled(s, Allocate(t)) && UsableIndex(DrawnIndex(s))
    ensures var s' := Allocated(s, t);
            && s'.leases == s.leases[DrawnIndex(s) := Lease(Client(t), s.runs)] && s'.workers == s.workers
            && s'.free == Drawn(s).free && s'.next == Drawn(s).next && s'.runs == s.runs + 1
            && s'.tasks == s.tasks[t := Building(s.tasks[t].id, DrawnIndex(s), s.runs, 0)]
  {
  }

  lemma DrawnIsNotLive(s: State)
    requires PartitionInv(s)
    ensures DrawnIndex(s) !in s.leases && DrawnIndex(s) >= 1
  {
    if s.free != [] { assert DrawnIndex(s) in s.free; }
  }

  lemma LeaseGranted(s: State, s': State, t: TaskId, p: Phase)
    requires LeaseInv(s) && t in s.tasks && !s.tasks[t].HasLease() && p.HasLease() && p.index !in s.leases
    requires s'.leases == s.leases[p.index := Lease(Client(t), p.run)] && s'.workers == s.workers && s'.tasks == s.tasks[t := p]
    ensures LeaseInv(s')
  {
    forall i | i in s'.leases ensures LeaseIsHeld(s', i, s'.leases[i]) {
      if i != p.index { assert LeaseIsHeld(s, i, s.leases[i]); }
    }
  }

  lemma LeaseAllocated(s: State, t: TaskId)
    requires LeaseInv(s) && PartitionInv(s) && Enabled(s, Allocate(t))
    ensures LeaseInv(Allocated(s, t))
  {
    var s' := Allocated(s, t);
    DrawnIsNotLive(s);
    if UsableIndex(DrawnIndex(s)) {
      AllocateEffect(s, t);
      LeaseGranted(s, s', t, Building(s.tasks[t].id, DrawnIndex(s), s.runs, 0));
    } else {
      LeaseFrame(s, s');
    }
  }

  lemma LeaseInserted(s: State, t: TaskId)
    requires LeaseInv(s) && Enabled(s, Insert(t))
    ensures LeaseInv(Listed(s, t))
  {
    var s' := Listed(s, t);
    forall i | i in s'.leases ensures LeaseIsHeld(s', i, s'.leases[i]) {
      if i != s.tasks[t].index { assert LeaseIsHeld(s, i, s.leases[i]); }
    }
  }

  lemma LeaseDropped(s: State, t: TaskId)
    requires LeaseInv(s) && Enabled(s, DropLease(t))
    ensures LeaseInv(Returned(s, t))
  {
    var s' := Returned(s, t);
    forall i | i in s'.leases ensures LeaseIsHeld(s', i, s'.leases[i]) { assert LeaseIsHeld(s, i, s.leases[i]); }
  }

  lemma LeaseTaken(s: State, t: TaskId, id: WorkerId)
    requires LeaseInv(s) && id in s.workers && (t in s.tasks ==> !s.tasks[t].HasLease())
    ensures LeaseInv(TakenOut(s, t, id))
  {
    var s' := TakenOut(s, t, id);
    forall i | i in s'.leases ensures LeaseIsHeld(s', i, s'.leases[i]) {
      if i != s.workers[id].index { assert LeaseIsHeld(s, i, s.leases[i]); }
    }
  }

  lemma LeaseStays(s: State, e: Event)
    requires LeaseInv(s) && Enabled(s, e) && !MovesLease(e)
    ensures LeaseInv(Apply(s, e))
  {
    StepKeepsLists(s, e);
    forall t, index, run ensures HasIndex(Apply(s, e), t, index, run) <==> HasIndex(s, t, index, run) {
      StepMovesNoLease(s, e, t, index, run);
    }
    LeaseFrame(s, Apply(s, e));
  }

  lemma LeaseKept(s: State, e: Event)
    requires LeaseInv(s) && PartitionInv(s) && Enabled(s, e)
    ensures LeaseInv(Apply(s, e))
  {
    match e {
      case Allocate(t) => LeaseAllocated(s, t);
      case Insert(t) => LeaseInserted(s, t);
      case DropLease(t) => LeaseDropped(s, t);
      case BeginStop(t, id) => if id in s.workers { LeaseTaken(s, t, id); } else { LeaseFrame(s, Gone(s, t)); }
      case DrainOne(t, id) => LeaseTaken(s, t, id);
      case _ => LeaseStays(s, e);
    }
  }

  // ----- preservation: runs -----

  lemma RunsFrame(s: State, e: Event)
    requires Enabled(s, e) && !e.Allocate? && LeaseInv(s)
    ensures Apply(s, e).runs == s.runs
    ensures forall i :: i in Apply(s, e).leases ==> i in s.leases && Apply(s, e).leases[i].run == s.leases[i].run
  {
    if e.Admits() { AdmissionFrame(s, e); } else if e.Releases() { ReleaseFrame(s, e); }
  }

  lemma RunsKept(s: State, e: Event)
    requires RunInv(s) && LeaseInv(s) && Enabled(s, e)
    ensures RunInv(Apply(s, e))
  {
    if e.Allocate? {
      if UsableIndex(DrawnIndex(s)) { AllocateEffect(s, e.task); }
    } else {
      RunsFrame(s, e);
    }
  }

  // ----- counting -----

  function Below(n: nat): (r: set<nat>)
    ensures |r| == n
    ensures forall i :: i in r <==> 0 <= i < n
  {
    if n == 0 then {} else Below(n - 1) + {n - 1}
  }

  lemma SubsetSize<T>(xs: set<T>, ys: set<T>)
    requires xs <= ys
    ensures |xs| <= |ys|
  {
    assert ys == xs + (ys - xs);
  }

  /** Distinct leases have distinct owners, so there are no more leases than owners. */
  lemma {:induction false} LeaseCount(s: State, indices: set<nat>, tasks: set<TaskId>, workers: set<WorkerId>)
    requires LeaseInv(s) && indices <= s.leases.Keys
    requires forall i :: i in indices ==>
                           match s.leases[i].owner case Client(t) => t in tasks case Running(id) => id in workers
    ensures |indices| <= |tasks| + |workers|
    decreases |indices|
  {
    if indices != {} {
      var i :| i in indices;
      assert LeaseIsHeld(s, i, s.leases[i]);
      forall j | j in indices - {i} ensures s.leases[j].owner != s.leases[i].owner { assert LeaseIsHeld(s, j, s.leases[j]); }
      match s.leases[i].owner {
        case Client(t) => LeaseCount(s, indices - {i}, tasks - {t}, workers);
        case Running(id) => LeaseCount(s, indices - {i}, tasks, workers - {id});
      }
    }
  }

  lemma SetsWithZero(n: nat, live: set<nat>)
    requires n > 0 && 0 !in live && forall i :: 0 < i < n <==> i in live
    ensures n == |live| + 1
  {
    assert Below(n) == live + {0};
  }

  /** With an empty free list the live leases are exactly 1..next-1. */
  lemma AllIssuedLive(s: State)
    requires PartitionInv(s) && s.free == []
    ensures s.next == |s.leases| + 1
  {
    assert forall i :: 0 < i < s.next ==> i in s.leases.Keys;
    SetsWithZero(s.next, s.leases.Keys);
  }

  /** Each client task and each listed worker holds at most one lease. */
  lemma LeaseBound(s: State, t: TaskId)
    requires LeaseInv(s) && t in s.tasks && !s.tasks[t].HasLease()
    ensures |s.leases| <= |s.tasks| - 1 + |s.workers|
  {
    forall i | i in s.leases
      ensures match s.leases[i].owner case Client(u) => u in s.tasks.Keys - {t} case Running(id) => id in s.workers.Keys
    {
      assert LeaseIsHeld(s, i, s.leases[i]);
    }
    LeaseCount(s, s.leases.Keys, s.tasks.Keys - {t}, s.workers.Keys);
    assert |s.tasks.Keys - {t}| == |s.tasks| - 1;
  }

  /** A fresh index equals the number of leases that will then be live, and the client and
      worker bounds keep that number far below the saturation point. */
  lemma FreshIndexIsLiveCount(s: State, t: TaskId)
    requires LeaseInv(s) && PartitionInv(s) && CapacityInv(s) && Enabled(s, Allocate(t)) && s.free == []
    ensures s.next == |s.leases| + 1 <= s.maxWorkers + 2 * MAX_CLIENTS - 1
  {
    AllIssuedLive(s);
    LeaseBound(s, t);
  }

  // ----- preservation: the index partition -----

  lemma PartitionFrame(s: State, s': State)
    requires PartitionInv(s) && s'.free == s.free && s'.next == s.next && s'.leases.Keys == s.leases.Keys
    ensures PartitionInv(s')
  {
  }

  lemma PartitionReused(s: State, s': State, l: Lease)
    requires PartitionInv(s) && s.free != [] && s'.free + [DrawnIndex(s)] == s.free
    requires s'.next == s.next && s'.leases == s.leases[DrawnIndex(s) := l]
    ensures PartitionInv(s')
  {
    assert s.free == s'.free + [DrawnIndex(s)];
    assert forall k :: 0 <= k < |s'.free| ==> s'.free[k] == s.free[k];
    assert s.free[|s'.free|] == DrawnIndex(s) && DrawnIndex(s) in s.free;
    forall i | i in s'.free ensures i in s.free && i != DrawnIndex(s) {
      var k :| 0 <= k < |s'.free| && s'.free[k] == i;
      assert s.free[k] == i;
    }
  }

  lemma PartitionExtended(s: State, s': State, l: Lease)
    requires PartitionInv(s) && s.next <= MAX_INDEX
    requires s'.free == s.free && s'.next == s.next + 1 && s'.leases == s.leases[s.next := l]
    ensures PartitionInv(s')
  {
  }

  lemma PartitionDrawn(s: State, t: TaskId)
    requires PartitionInv(s) && Enabled(s, Allocate(t)) && UsableIndex(DrawnIndex(s))
    ensures PartitionInv(Allocated(s, t))
  {
    AllocateEffect(s, t);
    if s.free == [] {
      PartitionExtended(s, Allocated(s, t), Lease(Client(t), s.runs));
    } else {
      PartitionReused(s, Allocated(s, t), Lease(Client(t), s.runs));
    }
  }

  lemma PartitionAllocated(s: State, t: TaskId)
    requires LeaseInv(s) && PartitionInv(s) && CapacityInv(s) && Enabled(s, Allocate(t))
    ensures PartitionInv(Allocated(s, t))
  {
    if s.free == [] { FreshIndexIsLiveCount(s, t); } else { assert DrawnIndex(s) in s.free; }
    PartitionDrawn(s, t);
  }

  lemma PartitionReturned(s: State, s': State, i: nat)
    requires PartitionInv(s) && i in s.leases
    requires s'.free == s.free + [i] && s'.next == s.next && s'.leases == s.leases - {i}
    ensures PartitionInv(s')
  {
    forall j | 1 <= j < s'.next ensures j in s'.free || j in s'.leases {
      if j == i { assert s'.free[|s.free|] == i; }
      else if j in s.free { assert j in s'.free; }
    }
  }

  lemma StepKeepsFree(s: State, e: Event)
    requires Enabled(s, e) && !e.Allocate? && !e.DropLease?
    ensures Apply(s, e).free == s.free && Apply(s, e).next == s.next
  {
    if e.Admits() { AdmissionFrame(s, e); }
  }

  lemma StepKeepsLive(s: State, e: Event)
    requires LeaseInv(s) && Enabled(s, e) && !e.Allocate? && !e.DropLease?
    ensures Apply(s, e).leases.Keys == s.leases.Keys
  {
    if !MovesLease(e) { StepKeepsLists(s, e); }
  }

  lemma PartitionKept(s: State, e: Event)
    requires LeaseInv(s) && PartitionInv(s) && CapacityInv(s) && Enabled(s, e)
    ensures PartitionInv(Apply(s, e))
  {
    match e {
      case Allocate(t) => PartitionAllocated(s, t);
      case DropLease(t) => PartitionReturned(s, Returned(s, t), s.tasks[t].index);
      case _ =>
        StepKeepsFree(s, e);
        StepKeepsLive(s, e);
        PartitionFrame(s, Apply(s, e));
    }
  }

  // ----- preservation: capacity -----

  lemma CapacityFrame(s: State, s': State)
    requires CapacityInv(s) && s'.maxWorkers == s.maxWorkers
    requires |s'.tasks| <= MAX_CLIENTS && |s'.workers| <= |s.workers| && MayInsert(s') <= MayInsert(s)
    ensures CapacityInv(s')
  {
    SubsetSize(MayInsert(s'), MayInsert(s));
  }

  lemma CapacityCounted(s: State, t: TaskId)
    requires CapacityInv(s) && Enabled(s, ReadWorkers(t))
    ensures CapacityInv(Apply(s, ReadWorkers(t)))
  {
    var s' := Apply(s, ReadWorkers(t));
    assert s'.tasks.Keys == s.tasks.Keys;
    SubsetSize(MayInsert(s'), s'.tasks.Keys);
    if |s.workers| >= s.maxWorkers { CapacityFrame(s, s'); }
  }

  lemma InsertUsesUp(s: State, t: TaskId)
    requires Enabled(s, Insert(t))
    ensures var s' := Listed(s, t);
            && MayInsert(s') <= MayInsert(s) - {t} && t in MayInsert(s)
            && s'.workers.Keys <= s.workers.Keys + {s.tasks[t].id} && s'.maxWorkers == s.maxWorkers
  {
  }

  lemma CapacityInserted(s: State, t: TaskId)
    requires CapacityInv(s) && Enabled(s, Insert(t))
    ensures CapacityInv(Listed(s, t))
  {
    var s' := Listed(s, t);
    InsertUsesUp(s, t);
    BuildingKeys(s, Insert(t));
    assert |s'.tasks| == |s'.tasks.Keys| && |s.tasks| == |s.tasks.Keys|;
    SubsetSize(MayInsert(s'), MayInsert(s) - {t});
    SubsetSize(s'.workers.Keys, s.workers.Keys + {s.tasks[t].id});
  }

  lemma CapacityAdmitted(s: State, t: TaskId)
    requires ReservationInv(s) && CapacityInv(s) && Enabled(s, ReadStarting(t))
    ensures CapacityInv(Apply(s, ReadStarting(t)))
  {
    var s' := Apply(s, ReadStarting(t));
    assert s'.tasks.Keys == s.tasks.Keys;
    assert Holds(s, t, s.tasks[t].id);
    assert |s.starting| >= 1;
    CapacityFrame(s, s');
  }

  lemma TaskKeys(s: State, e: Event)
    requires Enabled(s, e)
    ensures Apply(s, e).tasks.Keys <= s.tasks.Keys + if e.Accept? || e.DrainOne? then {e.task} else {}
  {
    forall t | t in Apply(s, e).tasks && t !in s.tasks ensures (e.Accept? || e.DrainOne?) && t == e.task {
      if !e.ByTask() || e.task != t { OtherTasksStay(s, e, t); }
    }
  }

  lemma TaskCountKept(s: State, e: Event)
    requires |s.tasks| <= MAX_CLIENTS && Enabled(s, e)
    ensures |Apply(s, e).tasks| <= MAX_CLIENTS
  {
    TaskKeys(s, e);
    if e.Accept? || e.DrainOne? {
      SubsetSize(Apply(s, e).tasks.Keys, s.tasks.Keys + {e.task});
      assert e.DrainOne? ==> s.tasks.Keys == {};
    } else {
      SubsetSize(Apply(s, e).tasks.Keys, s.tasks.Keys);
    }
  }

  lemma OwnCapacity(s: State, e: Event)
    requires Enabled(s, e) && e.ByTask() && !e.ReadWorkers? && !e.ReadStarting? && !e.Insert?
    requires e.task in Apply(s, e).tasks && CanInsert(Apply(s, e).tasks[e.task], s.maxWorkers)
    ensures e.task in s.tasks && CanInsert(s.tasks[e.task], s.maxWorkers)
  {
  }

  lemma MaxWorkersStays(s: State, e: Event)
    requires Enabled(s, e)
    ensures Apply(s, e).maxWorkers == s.maxWorkers
  {
    if e.Admits() { AdmissionFrame(s, e); }
    else if e.Builds() { BuildingFrame(s, e); }
    else if e.Releases() { ReleaseFrame(s, e); }
  }

  lemma StepFreesCapacity(s: State, e: Event)
    requires Enabled(s, e) && !e.ReadWorkers? && !e.ReadStarting? && !e.Insert?
    ensures MayInsert(Apply(s, e)) <= MayInsert(s)
  {
    MaxWorkersStays(s, e);
    forall t | t in MayInsert(Apply(s, e)) ensures t in MayInsert(s) {
      if !e.ByTask() || e.task != t { OtherTasksStay(s, e, t); } else { OwnCapacity(s, e); }
    }
  }

  lemma CapacityStays(s: State, e: Event)
    requires CapacityInv(s) && Enabled(s, e) && !e.ReadWorkers? && !e.ReadStarting? && !e.Insert?
    ensures CapacityInv(Apply(s, e))
  {
    TaskCountKept(s, e);
    StepFreesCapacity(s, e);
    WorkersChange(s, e);
    MaxWorkersStays(s, e);
    SubsetSize(Apply(s, e).workers.Keys, s.workers.Keys);
    CapacityFrame(s, Apply(s, e));
  }

  lemma CapacityKept(s: State, e: Event)
    requires ReservationInv(s) && CapacityInv(s) && Enabled(s, e)
    ensures CapacityInv(Apply(s, e))
  {
    match e {
      case ReadWorkers(t) => CapacityCounted(s, t);
      case ReadStarting(t) => CapacityAdmitted(s, t);
      case Insert(t) => CapacityInserted(s, t);
      case _ => CapacityStays(s, e);
    }
  }
}
