/** Consequences of the manager's invariants: addresses and names of an allocation, what a
    clean-up returns, and the shutdown. */
module NetdTheorems {
  import opened Wrappers
  import opened NetdProtocol
  import opened NetdInvariants
  import opened NetdResources

  // ----- the index allocator -----

  lemma IssuedIndicesArePartitioned(s: State)
    requires PartitionInv(s)
    ensures forall i: nat :: 1 <= i < s.next <==> i in s.free || i in s.leases
    ensures forall i :: i in s.free ==> i !in s.leases
    ensures |s.free| + |s.leases| + 1 == s.next
  {
    PartitionSize(s);
  }

  function Elements(xs: seq<nat>): (r: set<nat>)
    ensures forall x :: x in r <==> x in xs
  {
    if xs == [] then {} else Elements(xs[..|xs| - 1]) + {xs[|xs| - 1]}
  }

  lemma {:induction false} ElementCount(xs: seq<nat>)
    requires NoRepeats(xs)
    ensures |Elements(xs)| == |xs|
  {
    if xs != [] {
      var last, rest := xs[|xs| - 1], xs[..|xs| - 1];
      ElementCount(rest);
      assert last !in rest;
    }
  }

  lemma UnionSize(next: nat, live: set<nat>, free: set<nat>)
    requires next >= 1 && live !! free
    requires forall i :: i in live || i in free <==> 1 <= i < next
    ensures |live| + |free| + 1 == next
  {
    assert Below(next) == (live + free) + {0};
    assert |live + free| == |live| + |free|;
  }

  lemma PartitionSize(s: State)
    requires PartitionInv(s)
    ensures |s.free| + |s.leases| + 1 == s.next
  {
    ElementCount(s.free);
    UnionSize(s.next, s.leases.Keys, Elements(s.free));
  }

  lemma DrawnIsUsable(s: State, t: TaskId)
    requires LeaseInv(s) && PartitionInv(s) && CapacityInv(s) && Enabled(s, Allocate(t))
    ensures UsableIndex(DrawnIndex(s)) && DrawnIndex(s) !in s.leases
    ensures s.free == [] ==> DrawnIndex(s) == |s.leases| + 1 <= s.maxWorkers + 2 * MAX_CLIENTS - 1
  {
    DrawnIsNotLive(s);
    if s.free == [] { FreshIndexIsLiveCount(s, t); } else { assert DrawnIndex(s) in s.free; }
  }

  lemma AllocationGrants(s: State, t: TaskId)
    requires Enabled(s, Allocate(t)) && UsableIndex(DrawnIndex(s)) && DrawnIndex(s) !in s.leases
    ensures Apply(s, Allocate(t)).tasks[t].Building? && |Apply(s, Allocate(t)).leases| == |s.leases| + 1
  {
    AllocateEffect(s, t);
    assert s.leases[DrawnIndex(s) := Lease(Client(t), s.runs)].Keys == s.leases.Keys + {DrawnIndex(s)};
  }

  /** The drawn index is always usable, and a fresh one is the number of live leases. */
  lemma AllocationNeverSaturates(s: State, t: TaskId)
    requires LeaseInv(s) && PartitionInv(s) && CapacityInv(s) && Enabled(s, Allocate(t))
    ensures UsableIndex(DrawnIndex(s)) && DrawnIndex(s) !in s.leases
    ensures Apply(s, Allocate(t)).tasks[t].Building?
    ensures s.free == [] ==> DrawnIndex(s) == |Apply(s, Allocate(t)).leases| <= s.maxWorkers + 2 * MAX_CLIENTS - 1
  {
    DrawnIsUsable(s, t);
    AllocationGrants(s, t);
  }

  // ----- addresses and names of an allocation -----

  function SaturatingU8(x: nat): nat { if x > 255 then 255 else x }

  /** 10.231.third.last as a number, with the byte arithmetic of `allocate_network`. */
  function Address(index: nat, host: nat): nat {
    10 * 0x100_0000 + 231 * 0x1_0000 + (index / 64) * 0x100 + SaturatingU8((index % 64) * 4 + host)
  }

  function HostIp(index: nat): nat { Address(index, 1) }
  function WorkerIp(index: nat): nat { Address(index, 2) }

  predicate InSubnet(address: nat, network: nat, prefixSize: nat)
    requires prefixSize > 0
  {
    address / prefixSize == network / prefixSize
  }

  /** Both ends of an allocation lie in one /30 of 10.231.0.0/16, different live indices never
      share a /30, and the interface and namespace names differ as well. */
  lemma LiveSubnetsAreDisjoint(s: State, i: nat, j: nat)
    requires PartitionInv(s) && i in s.leases && j in s.leases
    ensures InSubnet(HostIp(i), 10 * 0x100_0000 + 231 * 0x1_0000, 0x1_0000)
    ensures InSubnet(HostIp(i), WorkerIp(i), 4) && HostIp(i) + 1 == WorkerIp(i)
    ensures i != j ==> !InSubnet(HostIp(i), HostIp(j), 4) && Hex4(i) != Hex4(j)
  {
    AddressIsLinear(i);
    AddressIsLinear(j);
    if Hex4(i) == Hex4(j) { Hex4Injective(i, j); }
  }

  lemma AddressIsLinear(i: nat)
    requires 1 <= i <= MAX_INDEX
    ensures HostIp(i) == 0x0ae7_0000 + 4 * i + 1 && WorkerIp(i) == HostIp(i) + 1
    ensures HostIp(i) / 4 == WorkerIp(i) / 4 == 0x02b9_c000 + i
    ensures HostIp(i) / 0x1_0000 == 0x0ae7
  {
    assert i == 64 * (i / 64) + i % 64;
    assert HostIp(i) == 0x0ae7_0000 + 4 * i + 1;
  }

  function HexDigit(d: nat): char
    requires d < 16
  {
    "0123456789abcdef"[d]
  }

  /** `format!("{index:04x}")` for a 16-bit index. */
  function Hex4(index: nat): string
    requires index < 0x1_0000
  {
    var a := index / 16;
    var b := a / 16;
    [HexDigit(b / 16), HexDigit(b % 16), HexDigit(a % 16), HexDigit(index % 16)]
  }

  lemma HexDigitInjective(a: nat, b: nat)
    requires a < 16 && b < 16 && HexDigit(a) == HexDigit(b)
    ensures a == b
  {
  }

  lemma QuotientAndRemainder(i: nat, j: nat)
    requires i / 16 == j / 16 && i % 16 == j % 16
    ensures i == j
  {
  }

  lemma Hex4Injective(i: nat, j: nat)
    requires i < 0x1_0000 && j < 0x1_0000 && Hex4(i) == Hex4(j)
    ensures i == j
  {
    var x, y := Hex4(i), Hex4(j);
    assert x[0] == y[0] && x[1] == y[1] && x[2] == y[2] && x[3] == y[3];
    HexDigitInjective(i / 16 / 16 / 16, j / 16 / 16 / 16);
    HexDigitInjective(i / 16 / 16 % 16, j / 16 / 16 % 16);
    HexDigitInjective(i / 16 % 16, j / 16 % 16);
    HexDigitInjective(i % 16, j % 16);
    QuotientAndRemainder(i / 16 / 16, j / 16 / 16);
    QuotientAndRemainder(i / 16, j / 16);
    QuotientAndRemainder(i, j);
  }

  // ----- clean-up -----

  /** The clean-up of `todo` when exactly the commands for `fails` fail. */
  function CleanUpEvents(t: TaskId, todo: seq<Resource>, fails: set<Resource>): seq<Event> {
    if todo == [] then [] else [ReleaseNext(t, todo[0] !in fails)] + CleanUpEvents(t, todo[1..], fails)
  }

  function SetOf(rs: seq<Resource>): (r: set<Resource>)
    ensures forall x :: x in r <==> x in rs
  {
    if rs == [] then {} else {rs[0]} + SetOf(rs[1..])
  }

  /** `s` after task `t` has gone through its list. */
  function Swept(s: State, t: TaskId, fails: set<Resource>): State
    requires t in s.tasks && s.tasks[t].CleansUp()
  {
    At(s.(world := s.world - (SetOf(s.tasks[t].todo) - fails)), t, s.tasks[t].(todo := []))
  }

  /** Only what exists can resist, and aborting a task always works. */
  ghost predicate CanFail(s: State, fails: set<Resource>) {
    forall r :: r in fails ==> r in s.world && !r.Monitor?
  }

  lemma SweepStep(s: State, t: TaskId, fails: set<Resource>)
    requires t in s.tasks && s.tasks[t].CleansUp() && s.tasks[t].todo != [] && PhaseInv(s.tasks[t]) && CanFail(s, fails)
    ensures var e := ReleaseNext(t, s.tasks[t].todo[0] !in fails);
            && Enabled(s, e) && CanFail(Apply(s, e), fails)
            && Apply(s, e) == At(s.(world := s.world - ({s.tasks[t].todo[0]} - fails)), t,
                                 s.tasks[t].(todo := s.tasks[t].todo[1..]))
  {
    assert s.tasks[t].todo[0] in fails ==> s.world - ({s.tasks[t].todo[0]} - fails) == s.world;
  }

  lemma SweptStays(s: State, t: TaskId, fails: set<Resource>)
    requires t in s.tasks && s.tasks[t].CleansUp() && s.tasks[t].todo != []
    ensures Swept(At(s.(world := s.world - ({s.tasks[t].todo[0]} - fails)), t, s.tasks[t].(todo := s.tasks[t].todo[1..])), t, fails)
            == Swept(s, t, fails)
  {
    var p := s.tasks[t];
    var s' := At(s.(world := s.world - ({p.todo[0]} - fails)), t, p.(todo := p.todo[1..]));
    assert s'.tasks[t := p.(todo := [])] == s.tasks[t := p.(todo := [])];
    assert s'.world - (SetOf(p.todo[1..]) - fails) == s.world - (SetOf(p.todo) - fails);
  }

  lemma SweepOne(s: State, t: TaskId, fails: set<Resource>)
    requires t in s.tasks && s.tasks[t].CleansUp() && s.tasks[t].todo != [] && PhaseInv(s.tasks[t]) && CanFail(s, fails)
    ensures var e := ReleaseNext(t, s.tasks[t].todo[0] !in fails);
            && Enabled(s, e) && CanFail(Apply(s, e), fails) && t in Apply(s, e).tasks && PhaseInv(Apply(s, e).tasks[t])
            && Apply(s, e).tasks[t] == s.tasks[t].(todo := s.tasks[t].todo[1..])
            && Swept(Apply(s, e), t, fails) == Swept(s, t, fails)
  {
    SweepStep(s, t, fails);
    SweptStays(s, t, fails);
    RestHasNoRepeats(s.tasks[t].todo);
  }

  lemma {:induction false} SweepAll(s: State, t: TaskId, fails: set<Resource>, todo: seq<Resource>)
    requires t in s.tasks && s.tasks[t].CleansUp() && s.tasks[t].todo == todo && PhaseInv(s.tasks[t]) && CanFail(s, fails)
    ensures IsRun(s, CleanUpEvents(t, todo, fails)) && Final(s, CleanUpEvents(t, todo, fails)) == Swept(s, t, fails)
    decreases |todo|
  {
    if todo == [] {
      assert s.tasks[t := s.tasks[t]] == s.tasks && s.world - ({} - fails) == s.world;
    } else {
      var e := ReleaseNext(t, todo[0] !in fails);
      SweepOne(s, t, fails);
      SweepAll(Apply(s, e), t, fails, todo[1..]);
      RunCons(s, e, CleanUpEvents(t, todo[1..], fails));
    }
  }

  /** The end of a failed start: index first, reservation last.  The end of a stop: the index. */
  function ReturnEvents(t: TaskId, p: Phase): seq<Event> {
    if p.Stopping? then [DropLease(t)] else [DropLease(t), DropReservation(t)]
  }

  /** `s` without task `t`, which cleaned up but for `fails`: its index is free again, its
      reservation is gone, and nothing else has changed. */
  function CleanedUp(s: State, t: TaskId, fails: set<Resource>): State
    requires t in s.tasks && s.tasks[t].CleansUp()
  {
    var p := s.tasks[t];
    s.(tasks := s.tasks - {t}, free := s.free + [p.index], leases := s.leases - {p.index},
       world := s.world - (SetOf(p.todo) - fails),
       starting := if p.Stopping? then s.starting else s.starting - {p.id})
  }

  lemma ReturnAfterSweep(s: State, t: TaskId, fails: set<Resource>)
    requires t in s.tasks && s.tasks[t].CleansUp()
    ensures var w := Swept(s, t, fails);
            IsRun(w, ReturnEvents(t, s.tasks[t])) && Final(w, ReturnEvents(t, s.tasks[t])) == CleanedUp(s, t, fails)
  {
    var w := Swept(s, t, fails);
    var w' := Apply(w, DropLease(t));
    if s.tasks[t].Stopping? {
      assert w'.tasks == s.tasks - {t};
      RunOne(w, DropLease(t));
    } else {
      assert Apply(w', DropReservation(t)).tasks == s.tasks - {t};
      RunOne(w', DropReservation(t));
      RunCons(w, DropLease(t), [DropReservation(t)]);
      assert [DropLease(t)] + [DropReservation(t)] == [DropLease(t), DropReservation(t)];
    }
  }

  /** Whatever the clean-up commands answer, a failing start or a stop that runs to its end returns
      index and reservation, removes exactly the parts whose commands succeeded, and changes
      nothing else. */
  lemma {:induction false} CleanUpReturnsEverything(s: State, t: TaskId, fails: set<Resource>)
    requires t in s.tasks && s.tasks[t].CleansUp() && PhaseInv(s.tasks[t]) && CanFail(s, fails)
    ensures var es := CleanUpEvents(t, s.tasks[t].todo, fails) + ReturnEvents(t, s.tasks[t]);
            IsRun(s, es) && Final(s, es) == CleanedUp(s, t, fails)
  {
    SweepAll(s, t, fails, s.tasks[t].todo);
    ReturnAfterSweep(s, t, fails);
    RunThen(s, CleanUpEvents(t, s.tasks[t].todo, fails), ReturnEvents(t, s.tasks[t]));
  }

  // ----- shutdown -----

  /** After the join only workers that are being stopped are left. */
  ghost predicate JoinInv(s: State) {
    s.joined ==> s.closing && forall t :: t in s.tasks ==> s.tasks[t].Stopping?
  }

  lemma JoinKept(s: State, e: Event)
    requires JoinInv(s) && Enabled(s, e)
    ensures JoinInv(Apply(s, e)) && (s.joined ==> Apply(s, e).joined && Apply(s, e).workers.Keys <= s.workers.Keys)
  {
    if s.joined {
      WorkersChange(s, e);
      FlagsStay(s, e);
      forall t | t in Apply(s, e).tasks ensures Apply(s, e).tasks[t].Stopping? {
        if !e.ByTask() || e.task != t { OtherTasksStay(s, e, t); }
      }
    }
  }

  /** After the clients are joined nothing can add a worker any more, in any continuation. */
  lemma {:induction false} JoinedManagerOnlyDrains(s: State, es: seq<Event>)
    requires JoinInv(s) && s.joined && IsRun(s, es)
    ensures Final(s, es).workers.Keys <= s.workers.Keys && JoinInv(Final(s, es))
    decreases |es|
  {
    if es != [] {
      JoinKept(s, es[0]);
      JoinedManagerOnlyDrains(Apply(s, es[0]), es[1..]);
    }
  }

  lemma {:induction false} JoinAlongRun(s: State, es: seq<Event>)
    requires JoinInv(s) && IsRun(s, es)
    ensures JoinInv(Final(s, es))
    decreases |es|
  {
    if es != [] {
      JoinKept(s, es[0]);
      JoinAlongRun(Apply(s, es[0]), es[1..]);
    }
  }

  /** One round of `stop_all`: take a worker out and go through `stop_process`. */
  function DrainEvents(w: Process, t: TaskId, id: WorkerId, fails: set<Resource>): seq<Event> {
    [DrainOne(t, id)] + (CleanUpEvents(t, StopList(id, w.index, w.run), fails) + [DropLease(t)])
  }

  /** `s` after that round. */
  function Drained(s: State, id: WorkerId, fails: set<Resource>): State
    requires id in s.workers
  {
    var w := s.workers[id];
    s.(workers := s.workers - {id}, free := s.free + [w.index], leases := s.leases - {w.index},
       world := s.world - (SetOf(StopList(id, w.index, w.run)) - fails))
  }

  lemma TakenAndCleanedUp(s: State, t: TaskId, id: WorkerId, fails: set<Resource>)
    requires s.tasks == map[] && id in s.workers
    ensures CleanedUp(TakenOut(s, t, id), t, fails) == Drained(s, id, fails)
  {
    var m, w := TakenOut(s, t, id), s.workers[id];
    assert m.leases - {w.index} == s.leases - {w.index};
    assert m.tasks - {t} == map[];
  }

  lemma {:induction false} DrainRound(s: State, t: TaskId, id: WorkerId, fails: set<Resource>)
    requires s.joined && s.tasks == map[] && id in s.workers && CanFail(s, fails)
    ensures var es := DrainEvents(s.workers[id], t, id, fails); IsRun(s, es) && Final(s, es) == Drained(s, id, fails)
  {
    var w := s.workers[id];
    ListsAreSound(LateDuplicate, id, w.index, w.run);
    CleanUpReturnsEverything(TakenOut(s, t, id), t, fails);
    TakenAndCleanedUp(s, t, id, fails);
    RunCons(s, DrainOne(t, id), CleanUpEvents(t, StopList(id, w.index, w.run), fails) + [DropLease(t)]);
  }

  function StopAllEvents(workers: map<WorkerId, Process>, t: TaskId, order: seq<WorkerId>, fails: set<Resource>): seq<Event>
    requires forall id :: id in order ==> id in workers
  {
    if order == [] then []
    else DrainEvents(workers[order[0]], t, order[0], fails) + StopAllEvents(workers, t, order[1..], fails)
  }

  lemma RestIsTail(order: seq<WorkerId>)
    requires NoRepeats(order) && order != []
    ensures NoRepeats(order[1..])
    ensures forall id :: id in order[1..] <==> id in order && id != order[0]
  {
    assert order == [order[0]] + order[1..];
    forall k | 0 <= k < |order[1..]| ensures order[1..][k] != order[0] { assert order[k + 1] != order[0]; }
  }

  lemma {:induction false} SameStops(ws: map<WorkerId, Process>, ws': map<WorkerId, Process>, t: TaskId, order: seq<WorkerId>,
                                     fails: set<Resource>)
    requires forall id :: id in order ==> id in ws && id in ws' && ws[id] == ws'[id]
    ensures StopAllEvents(ws, t, order, fails) == StopAllEvents(ws', t, order, fails)
    decreases |order|
  {
    if order != [] { SameStops(ws, ws', t, order[1..], fails); }
  }

  /** `stop_all` after the join, in any drain order and whatever the clean-up commands answer: it
      runs to its end and no worker is left. */
  lemma {:induction false} StopAllEmptiesManager(s: State, t: TaskId, order: seq<WorkerId>, fails: set<Resource>)
    requires s.joined && s.tasks == map[] && CanFail(s, fails)
    requires NoRepeats(order) && (forall id :: id in order <==> id in s.workers)
    ensures var es := StopAllEvents(s.workers, t, order, fails);
            IsRun(s, es) && Final(s, es).workers == map[] && Final(s, es).tasks == map[]
    decreases |order|
  {
    if order == [] {
      assert s.workers == map[];
    } else {
      var first := DrainEvents(s.workers[order[0]], t, order[0], fails);
      var m := Drained(s, order[0], fails);
      assert order[0] in order;
      DrainRound(s, t, order[0], fails);
      RestIsTail(order);
      StopAllEmptiesManager(m, t, order[1..], fails);
      SameStops(s.workers, m.workers, t, order[1..], fails);
      RunThen(s, first, StopAllEvents(m.workers, t, order[1..], fails));
    }
  }
}
