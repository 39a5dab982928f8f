/** What the manager's tasks and workers own outside of it, and what a failed clean-up leaves. */
module NetdResources {
  import opened Wrappers
  import opened NetdProtocol
  import opened NetdInvariants

  // ----- the clean-up lists -----

  lemma PartIsAmong(id: WorkerId, index: nat, run: nat, k: nat, r: Resource)
    requires k <= 5
    ensures r in Parts(id, index, run)[..k] <==>
            || (k > 0 && r == Directory(id)) || (k > 1 && r == Network(index)) || (k > 2 && r == OpenVpn(run))
            || (k > 3 && r == Monitor(run)) || (k > 4 && r == Socks(run))
  {
    var parts := Parts(id, index, run);
    var front := parts[..k];
    assert forall i :: 0 <= i < k ==> front[i] == parts[i];
    if k > 0 { assert front[0] == Directory(id); }
    if k > 1 { assert front[1] == Network(index); }
    if k > 2 { assert front[2] == OpenVpn(run); }
    if k > 3 { assert front[3] == Monitor(run); }
    if k > 4 { assert front[4] == Socks(run); }
  }

  lemma AllParts(id: WorkerId, index: nat, run: nat)
    ensures Parts(id, index, run)[..5] == Parts(id, index, run)
  {
  }

  /** Every exit cleans up exactly what exists there; a failed network set-up is cleaned too. */
  lemma CleanUpMatchesParts(exit: Exit, id: WorkerId, index: nat, run: nat, r: Resource)
    ensures r in CleanUpList(exit, id, index, run) <==>
            r in Parts(id, index, run)[..PartsAt(exit)] || (exit.NetworkFailed? && r == Network(index))
  {
    PartIsAmong(id, index, run, PartsAt(exit), r);
  }

  /** Monitor, SOCKS process, tunnel process, network, directory. */
  function Rank(r: Resource): nat {
    match r case Monitor(_) => 0 case Socks(_) => 1 case OpenVpn(_) => 2 case Network(_) => 3 case Directory(_) => 4
  }

  /** Every exit cleans up in the same order: the monitor before the processes it watches, the
      processes before their network, and the directory last. */
  lemma CleanUpIsOrdered(exit: Exit, id: WorkerId, index: nat, run: nat, i: nat, j: nat)
    requires i < j < |CleanUpList(exit, id, index, run)|
    ensures Rank(CleanUpList(exit, id, index, run)[i]) < Rank(CleanUpList(exit, id, index, run)[j])
  {
  }

  lemma StopListIsParts(id: WorkerId, index: nat, run: nat, r: Resource)
    ensures r in StopList(id, index, run) <==> r in Parts(id, index, run)
  {
  }

  // ----- ownership -----

  function Held(p: Phase): seq<Resource> {
    if p.Building? && p.made <= 5 then Parts(p.id, p.index, p.run)[..p.made]
    else if p.CleansUp() then p.todo
    else []
  }

  predicate Owns(s: State, o: Owner, r: Resource) {
    match o
    case Client(t) => t in s.tasks && r in Held(s.tasks[t])
    case Running(id) => id in s.workers && r in Parts(id, s.workers[id].index, s.workers[id].run)
  }

  ghost predicate Owned(s: State, r: Resource) { exists o :: Owns(s, o, r) }

  /** The remaining clean-up of a phase consists of its own parts, each once. */
  ghost predicate PhaseInv(p: Phase) {
    && (p.Building? ==> p.made <= 5)
    && (p.CleansUp() ==> NoRepeats(p.todo) && forall r :: r in p.todo ==> r in Parts(p.id, p.index, p.run))
  }

  ghost predicate PhasesInv(s: State) { forall t :: t in s.tasks ==> PhaseInv(s.tasks[t]) }

  lemma ListsAreSound(exit: Exit, id: WorkerId, index: nat, run: nat)
    ensures NoRepeats(CleanUpList(exit, id, index, run)) && NoRepeats(StopList(id, index, run))
    ensures forall r :: r in CleanUpList(exit, id, index, run) ==> r in Parts(id, index, run)
    ensures forall r :: r in StopList(id, index, run) ==> r in Parts(id, index, run)
  {
    forall r | r in CleanUpList(exit, id, index, run) ensures r in Parts(id, index, run) {
      CleanUpMatchesParts(exit, id, index, run, r);
    }
  }

  lemma OwnBuildingPhaseKept(s: State, e: Event)
    requires Enabled(s, e) && e.Builds() && PhaseInv(s.tasks[e.task])
    ensures PhaseInv(ApplyBuilding(s, e).tasks[e.task])
  {
    var p := s.tasks[e.task];
    if e.Fail? { ListsAreSound(e.exit, p.id, p.index, p.run); }
    if e.Insert? { ListsAreSound(LateDuplicate, p.id, p.index, p.run); }
  }

  lemma RestHasNoRepeats(todo: seq<Resource>)
    requires NoRepeats(todo) && todo != []
    ensures NoRepeats(todo[1..]) && forall r :: r in todo[1..] <==> r in todo && r != todo[0]
  {
    assert todo == [todo[0]] + todo[1..];
    forall k | 0 <= k < |todo[1..]| ensures todo[1..][k] != todo[0] { assert todo[k + 1] != todo[0]; }
  }

  lemma ReleasedPhaseKept(s: State, t: TaskId, ok: bool)
    requires Enabled(s, ReleaseNext(t, ok)) && PhaseInv(s.tasks[t])
    ensures PhaseInv(Released(s, t, ok).tasks[t])
  {
    RestHasNoRepeats(s.tasks[t].todo);
  }

  lemma TakenPhaseIsSound(s: State, t: TaskId, id: WorkerId)
    requires id in s.workers
    ensures PhaseInv(TakenOut(s, t, id).tasks[t])
  {
    ListsAreSound(LateDuplicate, id, s.workers[id].index, s.workers[id].run);
  }

  lemma OwnReleasePhaseKept(s: State, e: Event)
    requires Enabled(s, e) && e.Releases() && (e.task in s.tasks ==> PhaseInv(s.tasks[e.task]))
    requires e.task in ApplyRelease(s, e).tasks
    ensures PhaseInv(ApplyRelease(s, e).tasks[e.task])
  {
    if e.ReleaseNext? { ReleasedPhaseKept(s, e.task, e.ok); }
    if (e.BeginStop? || e.DrainOne?) && e.id in s.workers { TakenPhaseIsSound(s, e.task, e.id); }
  }

  lemma OwnPhaseKept(s: State, e: Event)
    requires Enabled(s, e) && e.ByTask() && (e.task in s.tasks ==> PhaseInv(s.tasks[e.task]))
    requires e.task in Apply(s, e).tasks
    ensures PhaseInv(Apply(s, e).tasks[e.task])
  {
    if e.Builds() { OwnBuildingPhaseKept(s, e); } else if e.Releases() { OwnReleasePhaseKept(s, e); }
  }

  lemma PhasesKept(s: State, e: Event)
    requires PhasesInv(s) && Enabled(s, e)
    ensures PhasesInv(Apply(s, e))
  {
    forall t | t in Apply(s, e).tasks ensures PhaseInv(Apply(s, e).tasks[t]) {
      if e.ByTask() && e.task == t { OwnPhaseKept(s, e); } else { OtherTasksStay(s, e, t); }
    }
  }

  // ----- what is left behind -----

  /** Whether the last clean-up of `r` failed, after one more event. */
  predicate FailedAfter(s: State, e: Event, r: Resource, failed: bool)
    requires Enabled(s, e)
  {
    if e.ReleaseNext? && s.tasks[e.task].todo[0] == r then !e.ok
    else if e.Acquire? && NextPart(s.tasks[e.task]) == r then false
    else failed
  }

  /** ... and after a run: some clean-up of `r` since its last set-up failed, and none succeeded later. */
  ghost predicate CleanUpFailed(s: State, es: seq<Event>, r: Resource, failed: bool)
    requires IsRun(s, es)
    decreases |es|
  {
    if es == [] then failed else CleanUpFailed(Apply(s, es[0]), es[1..], r, FailedAfter(s, es[0], r, failed))
  }

  /** A resource without owner exists exactly if its last clean-up failed. */
  ghost predicate LeftOver(s: State, r: Resource, failed: bool) { Owned(s, r) || (r in s.world <==> failed) }

  // ----- who owns what after a step -----

  /** The task of a step owns `r` before and after it. */
  predicate StaysOwn(s: State, s': State, t: TaskId, r: Resource) { Owns(s, Client(t), r) <==> Owns(s', Client(t), r) }

  lemma AdmissionOwnsNothing(s: State, e: Event, r: Resource)
    requires Enabled(s, e) && e.Admits()
    ensures !Owns(s, Client(e.task), r) && !Owns(ApplyAdmission(s, e), Client(e.task), r)
  {
  }

  lemma OtherOwnersStay(s: State, e: Event, o: Owner, r: Resource)
    requires Enabled(s, e) && e.ByTask() && o != Client(e.task)
    requires o.Running? ==> !e.Insert? && !e.BeginStop? && !e.DrainOne?
    ensures Owns(Apply(s, e), o, r) <==> Owns(s, o, r)
  {
    if o.Client? { OtherTasksStay(s, e, o.task); } else { WorkersStay(s, e); }
  }

  lemma WorkersStay(s: State, e: Event)
    requires Enabled(s, e) && !e.Insert? && !e.BeginStop? && !e.DrainOne?
    ensures Apply(s, e).workers == s.workers
  {
    if e.Admits() { AdmissionFrame(s, e); }
  }

  lemma OwnedStays(s: State, e: Event, r: Resource)
    requires Enabled(s, e) && e.ByTask() && !e.Insert? && !e.BeginStop? && !e.DrainOne?
    requires Owned(s, r) && (Owns(s, Client(e.task), r) ==> Owns(Apply(s, e), Client(e.task), r))
    ensures Owned(Apply(s, e), r)
  {
    var o :| Owns(s, o, r);
    if o != Client(e.task) { OtherOwnersStay(s, e, o, r); }
    assert Owns(Apply(s, e), o, r);
  }

  // ----- a step keeps track of what is left over -----

  lemma AdmissionLeaves(s: State, e: Event, r: Resource, failed: bool)
    requires LeftOver(s, r, failed) && Enabled(s, e) && e.Admits()
    ensures LeftOver(Apply(s, e), r, failed)
  {
    AdmissionFrame(s, e);
    AdmissionOwnsNothing(s, e, r);
    if Owned(s, r) { OwnedStays(s, e, r); }
  }

  lemma AllocationLeaves(s: State, t: TaskId, r: Resource, failed: bool)
    requires LeftOver(s, r, failed) && Enabled(s, Allocate(t))
    ensures LeftOver(Apply(s, Allocate(t)), r, failed)
  {
    if Owned(s, r) { OwnedStays(s, Allocate(t), r); }
  }

  lemma AcquisitionLeaves(s: State, t: TaskId, r: Resource, failed: bool)
    requires LeftOver(s, r, failed) && Enabled(s, Acquire(t))
    ensures LeftOver(Apply(s, Acquire(t)), r, FailedAfter(s, Acquire(t), r, failed))
  {
    var p, s' := s.tasks[t], Acquired(s, t);
    PartIsAmong(p.id, p.index, p.run, p.made, r);
    PartIsAmong(p.id, p.index, p.run, p.made + 1, r);
    if NextPart(p) == r {
      assert Owns(s', Client(t), r);
    } else if Owned(s, r) {
      OwnedStays(s, Acquire(t), r);
    }
  }

  lemma FailureLeaves(s: State, t: TaskId, exit: Exit, r: Resource, failed: bool)
    requires LeftOver(s, r, failed) && Enabled(s, Fail(t, exit))
    ensures LeftOver(Apply(s, Fail(t, exit)), r, failed)
  {
    var p, s' := s.tasks[t], Failed(s, t, exit);
    CleanUpMatchesParts(exit, p.id, p.index, p.run, r);
    if exit.NetworkFailed? && r == Network(p.index) {
      assert Owns(s', Client(t), r);
    } else if Owned(s, r) {
      OwnedStays(s, Fail(t, exit), r);
    }
  }

  lemma InsertionLeaves(s: State, t: TaskId, r: Resource, failed: bool)
    requires LeftOver(s, r, failed) && Enabled(s, Insert(t))
    ensures LeftOver(Apply(s, Insert(t)), r, failed)
  {
    var p, s' := s.tasks[t], Listed(s, t);
    AllParts(p.id, p.index, p.run);
    CleanUpMatchesParts(LateDuplicate, p.id, p.index, p.run, r);
    if Owned(s, r) {
      var o :| Owns(s, o, r);
      if o.Client? && o.task != t { OtherTasksStay(s, Insert(t), o.task); }
      var o' := if o == Client(t) && p.id !in s.workers then Running(p.id) else o;
      assert Owns(s', o', r);
    }
  }

  lemma ReleaseLeaves(s: State, t: TaskId, ok: bool, r: Resource, failed: bool)
    requires LeftOver(s, r, failed) && Enabled(s, ReleaseNext(t, ok))
    ensures LeftOver(Apply(s, ReleaseNext(t, ok)), r, FailedAfter(s, ReleaseNext(t, ok), r, failed))
  {
    var todo := s.tasks[t].todo;
    assert todo == [todo[0]] + todo[1..];
    if todo[0] != r && Owned(s, r) { OwnedStays(s, ReleaseNext(t, ok), r); }
  }

  lemma DropLeaves(s: State, e: Event, r: Resource, failed: bool)
    requires LeftOver(s, r, failed) && Enabled(s, e) && (e.DropLease? || e.DropReservation?)
    ensures LeftOver(Apply(s, e), r, failed)
  {
    if Owned(s, r) { OwnedStays(s, e, r); }
  }

  lemma TakingLeaves(s: State, e: Event, t: TaskId, id: WorkerId, r: Resource, failed: bool)
    requires LeftOver(s, r, failed) && Enabled(s, e) && (e == BeginStop(t, id) || e == DrainOne(t, id)) && id in s.workers
    ensures LeftOver(TakenOut(s, t, id), r, failed)
  {
    var s' := TakenOut(s, t, id);
    StopListIsParts(id, s.workers[id].index, s.workers[id].run, r);
    if Owned(s, r) {
      var o :| Owns(s, o, r);
      if o.Client? && o.task != t { OtherTasksStay(s, e, o.task); }
      var o' := if o == Running(id) then Client(t) else o;
      assert Owns(s', o', r);
    }
  }

  lemma IdleStopLeaves(s: State, t: TaskId, id: WorkerId, r: Resource, failed: bool)
    requires LeftOver(s, r, failed) && Enabled(s, BeginStop(t, id)) && id !in s.workers
    ensures LeftOver(Gone(s, t), r, failed)
  {
    if Owned(s, r) {
      var o :| Owns(s, o, r);
      assert Owns(Gone(s, t), o, r);
    }
  }

  lemma LeftOverKept(s: State, e: Event, r: Resource, failed: bool)
    requires LeftOver(s, r, failed) && Enabled(s, e)
    ensures LeftOver(Apply(s, e), r, FailedAfter(s, e, r, failed))
  {
    match e {
      case Allocate(t) => AllocationLeaves(s, t, r, failed);
      case Acquire(t) => AcquisitionLeaves(s, t, r, failed);
      case Fail(t, exit) => FailureLeaves(s, t, exit, r, failed);
      case Insert(t) => InsertionLeaves(s, t, r, failed);
      case ReleaseNext(t, ok) => ReleaseLeaves(s, t, ok, r, failed);
      case DropLease(_) => DropLeaves(s, e, r, failed);
      case DropReservation(_) => DropLeaves(s, e, r, failed);
      case BeginStop(t, id) => if id in s.workers { TakingLeaves(s, e, t, id, r, failed); } else { IdleStopLeaves(s, t, id, r, failed); }
      case DrainOne(t, id) => TakingLeaves(s, e, t, id, r, failed);
      case Shutdown => SameOwners(s, s.(closing := true), r);
      case Join => SameOwners(s, s.(joined := true), r);
      case _ => AdmissionLeaves(s, e, r, failed);
    }
  }

  lemma SameOwners(s: State, s': State, r: Resource)
    requires s'.tasks == s.tasks && s'.workers == s.workers
    ensures Owned(s', r) <==> Owned(s, r)
  {
    if o :| Owns(s, o, r) { assert Owns(s', o, r); }
    if o :| Owns(s', o, r) { assert Owns(s, o, r); }
  }

  /** In every run and for every resource: without an owner it exists iff its last clean-up failed. */
  lemma {:induction false} LeftOverAlongRun(s: State, es: seq<Event>, r: Resource, failed: bool)
    requires LeftOver(s, r, failed) && IsRun(s, es)
    ensures LeftOver(Final(s, es), r, CleanUpFailed(s, es, r, failed))
    decreases |es|
  {
    if es != [] {
      LeftOverKept(s, es[0], r, failed);
      LeftOverAlongRun(Apply(s, es[0]), es[1..], r, FailedAfter(s, es[0], r, failed));
    }
  }

  // ----- one owner each -----

  ghost predicate DirectoryInv(s: State) {
    forall o, p, id :: Owns(s, o, Directory(id)) && Owns(s, p, Directory(id)) ==> o == p
  }

  /** After a failed set-up the network need not exist, though its clean-up is still to come. */
  predicate MayBeMissing(s: State, o: Owner, r: Resource) {
    r.Network? && o.Client? && o.task in s.tasks && s.tasks[o.task].Unwinding?
  }

  ghost predicate ExistInv(s: State) {
    forall o, r :: Owns(s, o, r) ==> r in s.world || MayBeMissing(s, o, r)
  }

  ghost predicate ResourceInv(s: State) { PhasesInv(s) && DirectoryInv(s) && ExistInv(s) }

  lemma HeldIsPart(p: Phase, r: Resource)
    requires PhaseInv(p) && r in Held(p)
    ensures p.HasLease() && r in Parts(p.id, p.index, p.run)
  {
    if p.Building? { PartIsAmong(p.id, p.index, p.run, p.made, r); }
  }

  predicate KeyFits(r: Resource, index: nat, run: nat) {
    (r.Network? ==> r.index == index) && (r.OpenVpn? || r.Monitor? || r.Socks? ==> r.run == run)
  }

  lemma PartFits(id: WorkerId, index: nat, run: nat, r: Resource)
    requires r in Parts(id, index, run)
    ensures KeyFits(r, index, run) && (r.Directory? ==> r.worker == id)
  {
  }

  /** An owner holds the lease under which it owns. */
  lemma OwnerHasLease(s: State, o: Owner, r: Resource) returns (i: nat)
    requires LeaseInv(s) && PhasesInv(s) && Owns(s, o, r)
    ensures i in s.leases && s.leases[i].owner == o && KeyFits(r, i, s.leases[i].run)
  {
    match o
    case Client(t) =>
      HeldIsPart(s.tasks[t], r);
      PartFits(s.tasks[t].id, s.tasks[t].index, s.tasks[t].run, r);
      i := s.tasks[t].index;
    case Running(id) =>
      PartFits(id, s.workers[id].index, s.workers[id].run, r);
      i := s.workers[id].index;
  }

  lemma OneOwner(s: State, o: Owner, p: Owner, r: Resource)
    requires LeaseInv(s) && RunInv(s) && PhasesInv(s) && DirectoryInv(s) && Owns(s, o, r) && Owns(s, p, r)
    ensures o == p
  {
    var i := OwnerHasLease(s, o, r);
    var j := OwnerHasLease(s, p, r);
  }

  /** Where an owner got a resource from. */
  lemma OwnedBefore(s: State, e: Event, o: Owner, r: Resource)
    requires Enabled(s, e) && Owns(Apply(s, e), o, r)
    ensures || Owns(s, o, r)
            || (e.Acquire? && o == Client(e.task) && r == NextPart(s.tasks[e.task]))
            || (e.Fail? && e.exit.NetworkFailed? && o == Client(e.task) && r == Network(s.tasks[e.task].index))
            || (e.Insert? && o == Running(s.tasks[e.task].id) && Owns(s, Client(e.task), r) && s.tasks[e.task].id !in s.workers)
            || ((e.BeginStop? || e.DrainOne?) && o == Client(e.task) && e.id in s.workers && Owns(s, Running(e.id), r))
  {
    if !e.ByTask() {
    } else if e.Admits() {
      AdmissionFrame(s, e);
      AdmissionOwnsNothing(s, e, r);
      if o.Client? { OtherTasksStay(s, e, o.task); }
    } else if e.Builds() {
      BuiltBefore(s, e, o, r);
    } else {
      ReleasedBefore(s, e, o, r);
    }
  }

  lemma AcquiredBefore(s: State, t: TaskId, o: Owner, r: Resource)
    requires Enabled(s, Acquire(t)) && Owns(Acquired(s, t), o, r) && (o.Client? ==> o.task == t)
    ensures Owns(s, o, r) || (o == Client(t) && r == NextPart(s.tasks[t]))
  {
    var p := s.tasks[t];
    PartIsAmong(p.id, p.index, p.run, p.made, r);
    PartIsAmong(p.id, p.index, p.run, p.made + 1, r);
  }

  lemma ListedBefore(s: State, t: TaskId, o: Owner, r: Resource)
    requires Enabled(s, Insert(t)) && Owns(Listed(s, t), o, r) && (o.Client? ==> o.task == t)
    ensures Owns(s, o, r) || (o == Running(s.tasks[t].id) && Owns(s, Client(t), r) && s.tasks[t].id !in s.workers)
  {
    var p := s.tasks[t];
    AllParts(p.id, p.index, p.run);
    CleanUpMatchesParts(LateDuplicate, p.id, p.index, p.run, r);
  }

  lemma BuiltBefore(s: State, e: Event, o: Owner, r: Resource)
    requires Enabled(s, e) && e.Builds() && Owns(ApplyBuilding(s, e), o, r)
    ensures || Owns(s, o, r)
            || (e.Acquire? && o == Client(e.task) && r == NextPart(s.tasks[e.task]))
            || (e.Fail? && e.exit.NetworkFailed? && o == Client(e.task) && r == Network(s.tasks[e.task].index))
            || (e.Insert? && o == Running(s.tasks[e.task].id) && Owns(s, Client(e.task), r) && s.tasks[e.task].id !in s.workers)
  {
    if o.Client? && o.task != e.task {
      BuildingOthers(s, e, o.task);
    } else {
      var p := s.tasks[e.task];
      match e
      case Allocate(_) =>
      case Acquire(t) => AcquiredBefore(s, t, o, r);
      case Fail(_, exit) => CleanUpMatchesParts(exit, p.id, p.index, p.run, r);
      case Insert(t) => ListedBefore(s, t, o, r);
    }
  }

  lemma ReleasedBefore(s: State, e: Event, o: Owner, r: Resource)
    requires Enabled(s, e) && e.Releases() && Owns(ApplyRelease(s, e), o, r)
    ensures || Owns(s, o, r)
            || ((e.BeginStop? || e.DrainOne?) && o == Client(e.task) && e.id in s.workers && Owns(s, Running(e.id), r))
  {
    if o.Client? && o.task != e.task {
      ReleaseOthers(s, e, o.task);
    } else if e.BeginStop? || e.DrainOne? {
      if e.id in s.workers { StopListIsParts(e.id, s.workers[e.id].index, s.workers[e.id].run, r); }
    } else if e.ReleaseNext? {
      assert s.tasks[e.task].todo == [s.tasks[e.task].todo[0]] + s.tasks[e.task].todo[1..];
    }
  }

  lemma WorldShrinks(s: State, e: Event, r: Resource)
    requires Enabled(s, e) && r in s.world && r !in Apply(s, e).world
    ensures e.ReleaseNext? && s.tasks[e.task].todo[0] == r
  {
    if e.Admits() { AdmissionFrame(s, e); }
  }

  lemma ReleasedIsNotOwned(s: State, e: Event, r: Resource)
    requires Enabled(s, e) && e.ReleaseNext? && PhaseInv(s.tasks[e.task]) && s.tasks[e.task].todo[0] == r
    ensures Owns(s, Client(e.task), r) && !Owns(Apply(s, e), Client(e.task), r)
  {
    RestHasNoRepeats(s.tasks[e.task].todo);
  }

  lemma MissingStays(s: State, e: Event, o: Owner, r: Resource)
    requires Enabled(s, e) && MayBeMissing(s, o, r) && Owns(s, o, r) && Owns(Apply(s, e), o, r)
    ensures MayBeMissing(Apply(s, e), o, r)
  {
    if !e.ByTask() || e.task != o.task { OtherTasksStay(s, e, o.task); }
  }

  lemma StillExists(s: State, e: Event, o: Owner, r: Resource)
    requires LeaseInv(s) && RunInv(s) && ResourceInv(s) && Enabled(s, e) && Owns(s, o, r) && Owns(Apply(s, e), o, r)
    ensures r in Apply(s, e).world || MayBeMissing(Apply(s, e), o, r)
  {
    if r !in s.world {
      MissingStays(s, e, o, r);
    } else if r !in Apply(s, e).world {
      WorldShrinks(s, e, r);
      ReleasedIsNotOwned(s, e, r);
      OneOwner(s, o, Client(e.task), r);
    }
  }

  lemma NewlyOwnedExists(s: State, e: Event, o: Owner, r: Resource)
    requires ExistInv(s) && Enabled(s, e) && !Owns(s, o, r) && Owns(Apply(s, e), o, r)
    ensures r in Apply(s, e).world || MayBeMissing(Apply(s, e), o, r)
  {
    OwnedBefore(s, e, o, r);
    if e.Insert? { assert !MayBeMissing(s, Client(e.task), r); }
    if e.BeginStop? || e.DrainOne? { assert !MayBeMissing(s, Running(e.id), r); }
  }

  lemma ExistKept(s: State, e: Event)
    requires LeaseInv(s) && RunInv(s) && ResourceInv(s) && Enabled(s, e)
    ensures ExistInv(Apply(s, e))
  {
    forall o, r | Owns(Apply(s, e), o, r) ensures r in Apply(s, e).world || MayBeMissing(Apply(s, e), o, r) {
      if Owns(s, o, r) { StillExists(s, e, o, r); } else { NewlyOwnedExists(s, e, o, r); }
    }
  }

  /** Who hands a resource over keeps nothing of it. */
  lemma GiverLetsGo(s: State, e: Event, r: Resource)
    requires Enabled(s, e)
    ensures e.Insert? && s.tasks[e.task].id !in s.workers ==> !Owns(Apply(s, e), Client(e.task), r)
    ensures (e.BeginStop? || e.DrainOne?) && e.id in s.workers ==> !Owns(Apply(s, e), Running(e.id), r)
  {
  }

  lemma DirectoryOwnerIsNew(s: State, e: Event, o: Owner, p: Owner, id: WorkerId)
    requires DirectoryInv(s) && ExistInv(s) && Enabled(s, e)
    requires Owns(Apply(s, e), o, Directory(id)) && Owns(Apply(s, e), p, Directory(id)) && !Owns(s, o, Directory(id))
    ensures o == p
  {
    OwnedBefore(s, e, o, Directory(id));
    OwnedBefore(s, e, p, Directory(id));
    GiverLetsGo(s, e, Directory(id));
  }

  lemma DirectoryKept(s: State, e: Event)
    requires ResourceInv(s) && Enabled(s, e)
    ensures DirectoryInv(Apply(s, e))
  {
    forall o, p, id | Owns(Apply(s, e), o, Directory(id)) && Owns(Apply(s, e), p, Directory(id)) ensures o == p {
      if !Owns(s, o, Directory(id)) { DirectoryOwnerIsNew(s, e, o, p, id); }
      else if !Owns(s, p, Directory(id)) { DirectoryOwnerIsNew(s, e, p, o, id); }
    }
  }

  lemma ResourcesKept(s: State, e: Event)
    requires LeaseInv(s) && RunInv(s) && ResourceInv(s) && Enabled(s, e)
    ensures ResourceInv(Apply(s, e))
  {
    PhasesKept(s, e);
    DirectoryKept(s, e);
    ExistKept(s, e);
  }

  // ----- all invariants together -----

  ghost predicate Inv(s: State) {
    && ReservationInv(s) && CheckedInv(s) && LeaseInv(s) && RunInv(s) && PartitionInv(s) && CapacityInv(s)
    && ResourceInv(s)
  }

  lemma InvKept(s: State, e: Event)
    requires Inv(s) && Enabled(s, e)
    ensures Inv(Apply(s, e))
  {
    ReservationKept(s, e);
    CheckedKept(s, e);
    LeaseKept(s, e);
    RunsKept(s, e);
    PartitionKept(s, e);
    CapacityKept(s, e);
    ResourcesKept(s, e);
  }

  lemma {:induction false} InvAlongRun(s: State, es: seq<Event>)
    requires Inv(s) && IsRun(s, es)
    ensures Inv(Final(s, es))
    decreases |es|
  {
    if es != [] {
      InvKept(s, es[0]);
      InvAlongRun(Apply(s, es[0]), es[1..]);
    }
  }

  lemma InitInv(maxWorkers: nat)
    requires IsLimit(maxWorkers)
    ensures Inv(Init(maxWorkers))
  {
    assert MayInsert(Init(maxWorkers)) == {};
  }

  /** The invariants hold in every state that any interleaving reaches. */
  lemma ReachableInv(s: State)
    requires Reachable(s)
    ensures Inv(s)
  {
    var init := Init(s.maxWorkers);
    var es :| IsRun(init, es) && Final(init, es) == s;
    InitInv(s.maxWorkers);
    InvAlongRun(init, es);
  }
}
