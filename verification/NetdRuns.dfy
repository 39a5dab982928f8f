/** The manager's promises for every state that any interleaving of clients can reach. */
module NetdRuns {
  import opened Wrappers
  import opened NetdProtocol
  import opened NetdInvariants
  import opened NetdResources
  import opened NetdTheorems
  import opened NetdCapacity

  // ----- reservations and indices -----

  /** A worker id is reserved exactly while some task holds it, and never by two tasks. */
  lemma ReservationHasOneHolder(s: State, id: WorkerId)
    requires Reachable(s)
    ensures id in s.starting <==> exists t :: Holds(s, t, id)
    ensures forall t, u :: Holds(s, t, id) && Holds(s, u, id) ==> t == u
  {
    ReachableInv(s);
  }

  /** Only its holder lists a worker or gives a reservation up; in particular a rejected duplicate
      frees nobody's reservation, and the late duplicate branch of `start` is never taken. */
  lemma OnlyHolderActs(s: State, e: Event, id: WorkerId)
    requires Reachable(s) && Enabled(s, e)
    ensures id in s.starting && id !in Apply(s, e).starting ==> e.DropReservation? && Holds(s, e.task, id)
    ensures id !in s.workers && id in Apply(s, e).workers ==> e.Insert? && Holds(s, e.task, id)
    ensures e.Insert? ==> s.tasks[e.task].id !in s.workers && Apply(s, e).tasks[e.task].Inserted?
  {
    ReachableInv(s);
    StartingChanges(s, e);
    WorkersChange(s, e);
    if e.Insert? { assert s.tasks[e.task].Checked(); }
  }

  /** The issued indices are at all times the disjoint union of live leases and the free list. */
  lemma IndicesArePartitioned(s: State)
    requires Reachable(s)
    ensures forall i: nat :: 1 <= i < s.next <==> i in s.free || i in s.leases
    ensures forall i :: i in s.free ==> i !in s.leases
    ensures NoRepeats(s.free) && |s.free| + |s.leases| + 1 == s.next <= MAX_INDEX + 1
  {
    ReachableInv(s);
    IssuedIndicesArePartitioned(s);
  }

  /** An admitted start always gets an index; a fresh one is the number of leases then live. */
  lemma EveryAllocationSucceeds(s: State, t: TaskId)
    requires Reachable(s) && Enabled(s, Allocate(t))
    ensures Apply(s, Allocate(t)).tasks[t].Building? && UsableIndex(DrawnIndex(s)) && DrawnIndex(s) !in s.leases
    ensures s.free == [] ==> DrawnIndex(s) == |Apply(s, Allocate(t)).leases| <= s.maxWorkers + 2 * MAX_CLIENTS - 1
  {
    ReachableInv(s);
    AllocationNeverSaturates(s, t);
  }

  /** Live allocations lie in 10.231.0.0/16 and never share a /30 or an interface name. */
  lemma LiveWorkersAreSeparate(s: State, i: nat, j: nat)
    requires Reachable(s) && i in s.leases && j in s.leases
    ensures i < 0x1_0000 && j < 0x1_0000 && InSubnet(HostIp(i), 10 * 0x100_0000 + 231 * 0x1_0000, 0x1_0000)
    ensures InSubnet(HostIp(i), WorkerIp(i), 4) && HostIp(i) + 1 == WorkerIp(i)
    ensures i != j ==> !InSubnet(HostIp(i), HostIp(j), 4) && Hex4(i) != Hex4(j)
  {
    ReachableInv(s);
    LiveSubnetsAreDisjoint(s, i, j);
  }

  // ----- what exists and who owns it -----

  /** A directory, network, process or monitor has at most one owner; the owner holds the lease
      under which it was made; and what is owned exists, except a network whose set-up failed. */
  lemma ResourcesHaveOneOwner(s: State, o: Owner, p: Owner, r: Resource)
    requires Reachable(s) && Owns(s, o, r)
    ensures Owns(s, p, r) ==> p == o
    ensures exists i :: i in s.leases && s.leases[i].owner == o && KeyFits(r, i, s.leases[i].run)
    ensures r in s.world || MayBeMissing(s, o, r)
  {
    ReachableInv(s);
    var i := OwnerHasLease(s, o, r);
    if Owns(s, p, r) { OneOwner(s, o, p, r); }
  }

  /** Every error exit of `start` leaves the failing task as the owner of exactly what it had, and
      of the network if that was what failed, so that the clean-up it begins misses nothing. */
  lemma FailureKeepsOwnership(s: State, t: TaskId, exit: Exit, r: Resource)
    requires Reachable(s) && Enabled(s, Fail(t, exit))
    ensures Owns(Apply(s, Fail(t, exit)), Client(t), r) <==>
            Owns(s, Client(t), r) || (exit.NetworkFailed? && r == Network(s.tasks[t].index))
  {
    var p := s.tasks[t];
    ReachableInv(s);
    assert PhaseInv(p);
    CleanUpMatchesParts(exit, p.id, p.index, p.run, r);
  }

  /** In every run, what exists without an owner is exactly what the last clean-up failed to remove. */
  lemma {:induction false} LeftOversAreFailedCleanUps(maxWorkers: nat, es: seq<Event>, r: Resource)
    requires IsRun(Init(maxWorkers), es)
    ensures !Owned(Final(Init(maxWorkers), es), r) ==>
              (r in Final(Init(maxWorkers), es).world <==> CleanUpFailed(Init(maxWorkers), es, r, false))
  {
    LeftOverAlongRun(Init(maxWorkers), es, r, false);
  }

  lemma FreeIsNotOwned(s: State, i: nat)
    requires Inv(s) && i in s.free
    ensures !Owned(s, Network(i))
  {
    if o :| Owns(s, o, Network(i)) {
      var j := OwnerHasLease(s, o, Network(i));
    }
  }

  /** In every run, an index in the free list has a network left exactly if its last clean-up
      failed; and no clean-up of it is still to come. */
  lemma {:induction false} FreeIndexIsCleanUnlessCleanUpFailed(maxWorkers: nat, es: seq<Event>, i: nat)
    requires IsLimit(maxWorkers) && IsRun(Init(maxWorkers), es) && i in Final(Init(maxWorkers), es).free
    ensures Network(i) in Final(Init(maxWorkers), es).world <==> CleanUpFailed(Init(maxWorkers), es, Network(i), false)
    ensures !Owned(Final(Init(maxWorkers), es), Network(i))
  {
    InitInv(maxWorkers);
    InvAlongRun(Init(maxWorkers), es);
    FreeIsNotOwned(Final(Init(maxWorkers), es), i);
    LeftOversAreFailedCleanUps(maxWorkers, es, Network(i));
  }

  predicate NoCleanUpFails(es: seq<Event>) { forall k :: 0 <= k < |es| && es[k].ReleaseNext? ==> es[k].ok }

  lemma {:induction false} NothingFailed(s: State, es: seq<Event>, r: Resource)
    requires IsRun(s, es) && NoCleanUpFails(es)
    ensures !CleanUpFailed(s, es, r, false)
    decreases |es|
  {
    if es != [] { NothingFailed(Apply(s, es[0]), es[1..], r); }
  }

  /** If every clean-up command succeeds, everything that exists has an owner: no error exit and no
      stop leaves anything behind. */
  lemma {:induction false} WithoutFailuresNothingIsLeft(maxWorkers: nat, es: seq<Event>, r: Resource)
    requires IsRun(Init(maxWorkers), es) && NoCleanUpFails(es) && r in Final(Init(maxWorkers), es).world
    ensures Owned(Final(Init(maxWorkers), es), r)
  {
    LeftOversAreFailedCleanUps(maxWorkers, es, r);
    NothingFailed(Init(maxWorkers), es, r);
  }

  /** Processes and monitors that exist belong to a start that has drawn its index: the next start
      meets none of its own. */
  ghost predicate WorldInv(s: State) { RunsAreBelow(s.world, s.runs) }

  ghost predicate RunsAreBelow(world: set<Resource>, run: nat) {
    forall r :: r in world && (r.OpenVpn? || r.Monitor? || r.Socks?) ==> r.run < run
  }

  lemma WorldKept(s: State, e: Event)
    requires LeaseInv(s) && RunInv(s) && WorldInv(s) && Enabled(s, e)
    ensures WorldInv(Apply(s, e))
  {
    if e.Admits() { AdmissionFrame(s, e); }
    if e.Acquire? { assert s.leases[s.tasks[e.task].index].run == s.tasks[e.task].run; }
  }

  lemma {:induction false} WorldAlongRun(s: State, es: seq<Event>)
    requires Inv(s) && WorldInv(s) && IsRun(s, es)
    ensures WorldInv(Final(s, es))
    decreases |es|
  {
    if es != [] {
      WorldKept(s, es[0]);
      InvKept(s, es[0]);
      WorldAlongRun(Apply(s, es[0]), es[1..]);
    }
  }

  lemma ReachableWorld(s: State)
    requires Reachable(s)
    ensures WorldInv(s)
  {
    var es :| IsRun(Init(s.maxWorkers), es) && Final(Init(s.maxWorkers), es) == s;
    InitInv(s.maxWorkers);
    WorldAlongRun(Init(s.maxWorkers), es);
  }

  // ----- shutdown -----

  /** When the helper shuts down, all clients have been joined; draining the listed workers in any
      order, whatever the clean-up commands answer, ends with no worker and no lease, and exactly
      what a clean-up failed to remove is left. */
  lemma {:induction false} ShutdownLeavesNothing(maxWorkers: nat, es: seq<Event>, t: TaskId, order: seq<WorkerId>,
                                                 fails: set<Resource>, r: Resource)
    requires IsLimit(maxWorkers) && IsRun(Init(maxWorkers), es)
    requires var s := Final(Init(maxWorkers), es);
             && s.joined && s.tasks == map[] && CanFail(s, fails)
             && NoRepeats(order) && forall id :: id in order <==> id in s.workers
    ensures var all := es + StopAllEvents(Final(Init(maxWorkers), es).workers, t, order, fails);
            && IsRun(Init(maxWorkers), all)
            && Final(Init(maxWorkers), all).workers == map[] && Final(Init(maxWorkers), all).leases == map[]
            && (r in Final(Init(maxWorkers), all).world <==> CleanUpFailed(Init(maxWorkers), all, r, false))
  {
    var init := Init(maxWorkers);
    var s := Final(init, es);
    StopAllEmptiesManager(s, t, order, fails);
    RunThen(init, es, StopAllEvents(s.workers, t, order, fails));
    var all := es + StopAllEvents(s.workers, t, order, fails);
    InitInv(maxWorkers);
    InvAlongRun(init, all);
    EmptyManagerHoldsNothing(Final(init, all), r);
    LeftOversAreFailedCleanUps(maxWorkers, all, r);
  }

  lemma EmptyManagerHoldsNothing(s: State, r: Resource)
    requires LeaseInv(s) && s.tasks == map[] && s.workers == map[]
    ensures s.leases == map[] && !Owned(s, r)
  {
    assert s.leases.Keys == {};
  }

  /** After the join no continuation adds a worker. */
  lemma {:induction false} NoWorkerAfterJoin(maxWorkers: nat, es: seq<Event>, fs: seq<Event>)
    requires IsRun(Init(maxWorkers), es) && Final(Init(maxWorkers), es).joined && IsRun(Final(Init(maxWorkers), es), fs)
    ensures Final(Final(Init(maxWorkers), es), fs).workers.Keys <= Final(Init(maxWorkers), es).workers.Keys
  {
    JoinAlongRun(Init(maxWorkers), es);
    JoinedManagerOnlyDrains(Final(Init(maxWorkers), es), fs);
  }

  // ----- capacity -----

  /** If no step comes between the two reads of any `reserve`, listed workers plus admitted starts
      never exceed the limit, in any run. */
  lemma {:induction false} AtomicLimitHolds(maxWorkers: nat, es: seq<Event>)
    requires IsRun(Init(maxWorkers), es) && IsUninterrupted(es, None)
    ensures Load(Final(Init(maxWorkers), es)) <= maxWorkers
  {
    UninterruptedIsFresh(Init(maxWorkers), es, None);
    FreshReadsKeepLimit(maxWorkers, es);
  }
}
