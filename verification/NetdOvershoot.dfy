/** The bound on the number of workers is attained: for every limit some interleaving lists
    exactly as many workers as the stale reads of `reserve` can let in. */
module NetdOvershoot {
  import opened Wrappers
  import opened NetdProtocol
  import opened NetdInvariants
  import opened NetdResources
  import opened NetdCapacity

  /** A set of states that no step leaves. */
  ghost predicate Closed(reach: iset<State>) {
    forall s, e {:trigger Apply(s, e)} :: s in reach && Enabled(s, e) ==> Apply(s, e) in reach
  }

  lemma ReachableStep(s: State, e: Event)
    requires Reachable(s) && Enabled(s, e)
    ensures Reachable(Apply(s, e))
  {
    var init := Init(s.maxWorkers);
    var es :| IsRun(init, es) && Final(init, es) == s;
    RunSnoc(init, es, e);
    MaxWorkersStays(s, e);
  }

  // ----- a start that succeeds -----

  /** The first `k` parts. */
  function Made(id: WorkerId, index: nat, run: nat, k: nat): set<Resource>
    requires k <= 5
  {
    if k == 0 then {} else Made(id, index, run, k - 1) + {Parts(id, index, run)[k - 1]}
  }

  /** `t` has built `k` parts, in a state that was `s` when its index was drawn. */
  function BuiltUpTo(s: State, t: TaskId, id: WorkerId, index: nat, run: nat, k: nat): State
    requires k <= 5
  {
    At(s.(world := s.world + Made(id, index, run, k)), t, Building(id, index, run, k))
  }

  lemma BuildOne(s: State, t: TaskId, id: WorkerId, index: nat, run: nat, k: nat)
    requires k < 5 && Directory(id) !in s.world && Network(index) !in s.world
    ensures Enabled(BuiltUpTo(s, t, id, index, run, k), Acquire(t))
    ensures Apply(BuiltUpTo(s, t, id, index, run, k), Acquire(t)) == BuiltUpTo(s, t, id, index, run, k + 1)
  {
    var b := BuiltUpTo(s, t, id, index, run, k);
    assert k == 1 ==> Made(id, index, run, k) == {Directory(id)};
    assert b.tasks[t := Building(id, index, run, k + 1)] == s.tasks[t := Building(id, index, run, k + 1)];
    assert s.world + Made(id, index, run, k) + {Parts(id, index, run)[k]} == s.world + Made(id, index, run, k + 1);
  }

  lemma {:induction false} BuildUp(reach: iset<State>, s: State, t: TaskId, id: WorkerId, index: nat, run: nat, k: nat)
    requires Closed(reach) && k <= 5 && BuiltUpTo(s, t, id, index, run, 0) in reach
    requires Directory(id) !in s.world && Network(index) !in s.world
    ensures BuiltUpTo(s, t, id, index, run, k) in reach
    decreases k
  {
    if k > 0 {
      BuildUp(reach, s, t, id, index, run, k - 1);
      BuildOne(s, t, id, index, run, k - 1);
    }
  }

  /** The free list is empty and the counter is far from the end. */
  predicate FreshOnly(s: State) { s.free == [] && 1 <= s.next <= 1000 }

  /** The state after a start that stood at `Admitted` in `s` has succeeded. */
  function Finished(s: State, t: TaskId, id: WorkerId): State {
    s.(workers := s.workers[id := Process(s.next, s.runs)], leases := s.leases[s.next := Lease(Running(id), s.runs)],
       next := s.next + 1, runs := s.runs + 1, world := s.world + Made(id, s.next, s.runs, 5),
       starting := s.starting - {id}, tasks := s.tasks - {t})
  }

  /** `s` with the next index leased to `t`. */
  function Drew(s: State, t: TaskId): State {
    s.(next := s.next + 1, runs := s.runs + 1, leases := s.leases[s.next := Lease(Client(t), s.runs)])
  }

  lemma DrawOne(s: State, t: TaskId, id: WorkerId)
    requires t in s.tasks && s.tasks[t] == Admitted(id) && FreshOnly(s)
    ensures Apply(s, Allocate(t)) == BuiltUpTo(Drew(s, t), t, id, s.next, s.runs, 0)
  {
    assert s.world + {} == s.world;
  }

  lemma ListOne(s: State, t: TaskId, id: WorkerId)
    requires t in s.tasks && id !in s.workers
    ensures var b := BuiltUpTo(Drew(s, t), t, id, s.next, s.runs, 5);
            && Enabled(b, Insert(t)) && Enabled(Apply(b, Insert(t)), DropReservation(t))
            && Apply(Apply(b, Insert(t)), DropReservation(t)) == Finished(s, t, id)
  {
    var b := BuiltUpTo(Drew(s, t), t, id, s.next, s.runs, 5);
    var b' := Apply(b, Insert(t));
    assert b'.tasks - {t} == s.tasks - {t};
    assert b'.leases == s.leases[s.next := Lease(Running(id), s.runs)];
  }

  /** From admission to the end of a successful start. */
  lemma FinishStart(reach: iset<State>, s: State, t: TaskId, id: WorkerId)
    requires Closed(reach) && s in reach && t in s.tasks && s.tasks[t] == Admitted(id) && id !in s.workers
    requires FreshOnly(s) && Directory(id) !in s.world && Network(s.next) !in s.world
    ensures Finished(s, t, id) in reach
  {
    DrawOne(s, t, id);
    BuildUp(reach, Drew(s, t), t, id, s.next, s.runs, 5);
    ListOne(s, t, id);
    var b := BuiltUpTo(Drew(s, t), t, id, s.next, s.runs, 5);
    assert Apply(b, Insert(t)) in reach;
  }

  // ----- accepting, counting, admitting -----

  lemma CountSteps(s: State, t: TaskId, id: WorkerId)
    requires !s.closing && t !in s.tasks && |s.tasks| < MAX_CLIENTS && id !in s.starting && id !in s.workers
    ensures var s1 := Apply(s, Accept(t));
            && Enabled(s1, BeginStart(t, id)) && Enabled(Apply(s1, BeginStart(t, id)), ReadWorkers(t))
            && Apply(Apply(s1, BeginStart(t, id)), ReadWorkers(t))
               == At(s.(starting := s.starting + {id}), t, Counted(id, |s.workers|))
  {
    var s1 := Apply(s, Accept(t));
    var s2 := Apply(s1, BeginStart(t, id));
    assert s2.tasks == s.tasks[t := Reserving(id)];
    assert Apply(s2, ReadWorkers(t)).tasks == s.tasks[t := Counted(id, |s.workers|)];
  }

  /** Up to the first read of `reserve`, for an id nobody uses. */
  lemma CountQuietly(reach: iset<State>, s: State, t: TaskId, id: WorkerId)
    requires Closed(reach) && s in reach && !s.closing && t !in s.tasks && |s.tasks| < MAX_CLIENTS
    requires id !in s.starting && id !in s.workers
    ensures At(s.(starting := s.starting + {id}), t, Counted(id, |s.workers|)) in reach
  {
    CountSteps(s, t, id);
    var s1 := Apply(s, Accept(t));
    assert s1 in reach && Apply(s1, BeginStart(t, id)) in reach;
  }

  lemma AdmitOne(s: State, t: TaskId, id: WorkerId, running: nat)
    requires t in s.tasks && s.tasks[t] == Counted(id, running) && running + |s.starting| <= s.maxWorkers
    ensures Apply(s, ReadStarting(t)) == At(s, t, Admitted(id))
  {
  }

  /** A new client `t` would get a place for `id`. */
  predicate CanReserve(s: State, t: TaskId, id: WorkerId) {
    && !s.closing && t !in s.tasks && |s.tasks| < MAX_CLIENTS
    && id !in s.starting && id !in s.workers && |s.workers| + |s.starting| < s.maxWorkers
  }

  /** All of `reserve`. */
  lemma ReserveQuietly(reach: iset<State>, s: State, t: TaskId, id: WorkerId)
    requires Closed(reach) && s in reach && CanReserve(s, t, id)
    ensures At(s.(starting := s.starting + {id}), t, Admitted(id)) in reach
  {
    CountQuietly(reach, s, t, id);
    var s1 := At(s.(starting := s.starting + {id}), t, Counted(id, |s.workers|));
    AdmitOne(s1, t, id, |s.workers|);
    assert s1.tasks[t := Admitted(id)] == s.tasks[t := Admitted(id)];
  }

  // ----- a sliding window of starts -----

  /** Start `t` of a race for `k` places above `n` workers: the first `k` are let in, the others
      have counted one worker more than the one before. */
  function Racer(n: nat, k: nat, t: TaskId): Phase { if t < k then Admitted(n + t) else Counted(n + t, n + t - k) }

  function Racers(n: nat, k: nat, lo: nat, hi: nat): map<TaskId, Phase> { map t: nat | lo <= t < hi :: Racer(n, k, t) }

  function Range(lo: nat, hi: nat): set<WorkerId> { Racers(0, 0, lo, hi).Keys }

  /** Exactly the starts `lo..hi` are under way. */
  predicate Racing(s: State, n: nat, k: nat, lo: nat, hi: nat) {
    lo <= hi && s.tasks == Racers(n, k, lo, hi) && s.starting == Range(n + lo, n + hi)
  }

  lemma {:induction false} RangeSize(lo: nat, hi: nat)
    requires lo <= hi
    ensures |Range(lo, hi)| == hi - lo
    decreases hi
  {
    if lo < hi {
      RangeSize(lo, hi - 1);
      assert Range(lo, hi) == Range(lo, hi - 1) + {hi - 1};
    } else {
      assert Range(lo, hi) == {};
    }
  }

  lemma RacersSize(n: nat, k: nat, lo: nat, hi: nat)
    requires lo <= hi
    ensures |Racers(n, k, lo, hi)| == hi - lo
  {
    RangeSize(lo, hi);
    assert Racers(n, k, lo, hi).Keys == Range(lo, hi);
    assert |Racers(n, k, lo, hi)| == |Racers(n, k, lo, hi).Keys|;
  }

  /** The window moves on at both ends. */
  lemma WindowMoves(n: nat, k: nat, lo: nat, hi: nat)
    requires lo <= hi
    ensures Racers(n, k, lo, hi + 1) == Racers(n, k, lo, hi)[hi := Racer(n, k, hi)]
    ensures Range(n + lo, n + (hi + 1)) == Range(n + lo, n + hi) + {n + hi}
    ensures lo < hi ==> Racers(n, k, lo + 1, hi) == Racers(n, k, lo, hi) - {lo}
    ensures lo < hi ==> Range(n + (lo + 1), n + hi) == Range(n + lo, n + hi) - {n + lo}
  {
  }

  /** Exactly `m` workers are listed, and nothing of a later one exists. */
  ghost predicate Settled(s: State, m: nat) {
    && !s.closing && s.free == [] && s.next == m + 1 && |s.workers| == m
    && (forall id :: id in s.workers ==> id < m)
    && (forall id: nat :: Directory(id) in s.world ==> id < m) && (forall i: nat :: Network(i) in s.world ==> i <= m)
  }

  lemma {:induction false} MadeKeys(id: WorkerId, index: nat, run: nat)
    ensures Made(id, index, run, 5) == {Directory(id), Network(index), OpenVpn(run), Monitor(run), Socks(run)}
  {
    assert Made(id, index, run, 1) == {Directory(id)};
    assert Made(id, index, run, 2) == {Directory(id), Network(index)};
    assert Made(id, index, run, 3) == {Directory(id), Network(index), OpenVpn(run)};
    assert Made(id, index, run, 4) == {Directory(id), Network(index), OpenVpn(run), Monitor(run)};
  }

  lemma OneMoreWorker(workers: map<WorkerId, Process>, id: WorkerId, w: Process)
    requires id !in workers
    ensures |workers[id := w]| == |workers| + 1
  {
    assert workers[id := w].Keys == workers.Keys + {id};
    assert |workers[id := w]| == |workers[id := w].Keys| && |workers| == |workers.Keys|;
  }

  lemma FinishedSettled(s: State, t: TaskId, m: nat)
    requires Settled(s, m)
    ensures Settled(Finished(s, t, m), m + 1)
  {
    MadeKeys(m, s.next, s.runs);
    OneMoreWorker(s.workers, m, Process(s.next, s.runs));
    assert forall id :: Directory(id) in Made(m, s.next, s.runs, 5) ==> id == m;
    assert forall i :: Network(i) in Made(m, s.next, s.runs, 5) ==> i == s.next;
  }

  lemma FinishedRacing(s: State, n: nat, k: nat, lo: nat, hi: nat)
    requires Racing(s, n, k, lo, hi) && lo < hi
    ensures Racing(Finished(At(s, lo, Admitted(n + lo)), lo, n + lo), n, k, lo + 1, hi)
  {
    WindowMoves(n, k, lo, hi);
    assert s.tasks[lo := Admitted(n + lo)] - {lo} == s.tasks - {lo};
  }

  /** The start at the low end of the window is let in, if it is not yet. */
  lemma LowestIsAdmitted(reach: iset<State>, s: State, n: nat, k: nat, lo: nat, hi: nat)
    requires Closed(reach) && s in reach && Racing(s, n, k, lo, hi) && lo < hi
    requires lo < k || n + lo - k + (hi - lo) <= s.maxWorkers
    ensures At(s, lo, Admitted(n + lo)) in reach
  {
    assert s.tasks[lo] == Racer(n, k, lo);
    if lo < k {
      assert s.tasks[lo := Admitted(n + lo)] == s.tasks;
    } else {
      RangeSize(n + lo, n + hi);
      AdmitOne(s, lo, n + lo, n + lo - k);
    }
  }

  /** ... and finishes. */
  lemma FinishLowest(reach: iset<State>, s: State, n: nat, k: nat, lo: nat, hi: nat) returns (s': State)
    requires Closed(reach) && s in reach && Racing(s, n, k, lo, hi) && Settled(s, n + lo) && lo < hi && n + lo < 1000
    requires lo < k || n + lo - k + (hi - lo) <= s.maxWorkers
    ensures s' in reach && Racing(s', n, k, lo + 1, hi) && Settled(s', n + lo + 1) && s'.maxWorkers == s.maxWorkers
  {
    var s1 := At(s, lo, Admitted(n + lo));
    LowestIsAdmitted(reach, s, n, k, lo, hi);
    FinishStart(reach, s1, lo, n + lo);
    s' := Finished(s1, lo, n + lo);
    FinishedSettled(s1, lo, n + lo);
    FinishedRacing(s, n, k, lo, hi);
  }

  lemma JoinedRacing(s: State, n: nat, k: nat, lo: nat, hi: nat, id: WorkerId, p: Phase)
    requires Racing(s, n, k, lo, hi) && id == n + hi && p == Racer(n, k, hi)
    ensures Racing(At(s.(starting := s.starting + {id}), hi, p), n, k, lo, hi + 1)
  {
    WindowMoves(n, k, lo, hi);
  }

  lemma NextIsUnused(s: State, n: nat, k: nat, lo: nat, hi: nat)
    requires Racing(s, n, k, lo, hi) && Settled(s, n + lo)
    ensures hi !in s.tasks && n + hi !in s.starting && n + hi !in s.workers
    ensures |s.tasks| == |s.starting| == hi - lo
  {
    RacersSize(n, k, lo, hi);
    RangeSize(n + lo, n + hi);
  }

  lemma HighestCanReserve(s: State, n: nat, k: nat, lo: nat, hi: nat, m: nat)
    requires Racing(s, n, k, lo, hi) && Settled(s, m) && m == n + lo
    requires hi - lo < MAX_CLIENTS && m + (hi - lo) < s.maxWorkers
    ensures CanReserve(s, hi, n + hi)
  {
    NextIsUnused(s, n, k, lo, hi);
  }

  lemma JoinedSettled(s: State, n: nat, t: TaskId, id: WorkerId, p: Phase)
    requires Settled(s, n)
    ensures Settled(At(s.(starting := s.starting + {id}), t, p), n)
  {
  }

  /** One more start is let in at the high end. */
  lemma AdmitHighest(reach: iset<State>, s: State, n: nat, k: nat, lo: nat, hi: nat) returns (s': State)
    requires Closed(reach) && s in reach && Racing(s, n, k, lo, hi) && Settled(s, n) && lo == 0
    requires hi < k <= 31 && n + k <= s.maxWorkers
    ensures s' in reach && Racing(s', n, k, lo, hi + 1) && Settled(s', n) && s'.maxWorkers == s.maxWorkers
  {
    var id, p := n + hi, Racer(n, k, hi);
    HighestCanReserve(s, n, k, lo, hi, n);
    ReserveQuietly(reach, s, hi, id);
    s' := At(s.(starting := s.starting + {id}), hi, p);
    JoinedRacing(s, n, k, lo, hi, id, p);
    JoinedSettled(s, n, hi, id, p);
  }

  /** One more start counts the workers at the high end. */
  lemma CountHighest(reach: iset<State>, s: State, n: nat, k: nat, lo: nat) returns (s': State)
    requires Closed(reach) && s in reach && Racing(s, n, k, lo, k + lo) && Settled(s, n + lo) && lo < k <= 31
    ensures s' in reach && Racing(s', n, k, lo, k + lo + 1) && Settled(s', n + lo) && s'.maxWorkers == s.maxWorkers
  {
    var t, id := k + lo, n + (k + lo);
    var p := Racer(n, k, t);
    NextIsUnused(s, n, k, lo, t);
    CountQuietly(reach, s, t, id);
    s' := At(s.(starting := s.starting + {id}), t, p);
    JoinedRacing(s, n, k, lo, t, id, p);
    JoinedSettled(s, n + lo, t, id, p);
  }

  // ----- the race -----

  lemma {:induction false} FillUp(reach: iset<State>, maxWorkers: nat, n: nat) returns (s: State)
    requires n <= maxWorkers <= MAX_MANAGED_WORKERS && Closed(reach) && Init(maxWorkers) in reach
    ensures s in reach && Racing(s, n, 0, 0, 0) && Settled(s, n) && s.maxWorkers == maxWorkers
  {
    if n == 0 {
      s := Init(maxWorkers);
    } else {
      s := FillUp(reach, maxWorkers, n - 1);
      assert Racing(s, n - 1, 1, 0, 0);
      s := AdmitHighest(reach, s, n - 1, 1, 0, 0);
      s := FinishLowest(reach, s, n - 1, 1, 0, 1);
      assert Racing(s, n, 0, 0, 0);
    }
  }

  /** `k` starts are let in while `n` workers are listed. */
  lemma {:induction false} LetIn(reach: iset<State>, maxWorkers: nat, n: nat, k: nat, j: nat) returns (s: State)
    requires j <= k <= 31 && n + k == maxWorkers <= MAX_MANAGED_WORKERS && Closed(reach) && Init(maxWorkers) in reach
    ensures s in reach && Racing(s, n, k, 0, j) && Settled(s, n) && s.maxWorkers == maxWorkers
    decreases j
  {
    if j == 0 {
      s := FillUp(reach, maxWorkers, n);
    } else {
      s := LetIn(reach, maxWorkers, n, k, j - 1);
      s := AdmitHighest(reach, s, n, k, 0, j - 1);
    }
  }

  /** Before each of them is listed, another start counts the workers. */
  lemma {:induction false} CountBeforeListing(reach: iset<State>, maxWorkers: nat, n: nat, k: nat, j: nat) returns (s: State)
    requires j <= k <= 31 && n + k == maxWorkers <= MAX_MANAGED_WORKERS && Closed(reach) && Init(maxWorkers) in reach
    ensures s in reach && Racing(s, n, k, j, k + j) && Settled(s, n + j) && s.maxWorkers == maxWorkers
    decreases j
  {
    if j == 0 {
      s := LetIn(reach, maxWorkers, n, k, k);
    } else {
      s := CountBeforeListing(reach, maxWorkers, n, k, j - 1);
      s := CountHighest(reach, s, n, k, j - 1);
      s := FinishLowest(reach, s, n, k, j - 1, k + j);
    }
  }

  /** Then the late ones are let in one after the other by their stale counts. */
  lemma {:induction false} ListLate(reach: iset<State>, maxWorkers: nat, n: nat, k: nat, j: nat) returns (s: State)
    requires j <= k <= 31 && n + k == maxWorkers <= MAX_MANAGED_WORKERS && Closed(reach) && Init(maxWorkers) in reach
    ensures s in reach && Racing(s, n, k, k + j, 2 * k) && Settled(s, n + k + j) && s.maxWorkers == maxWorkers
    decreases j
  {
    if j == 0 {
      s := CountBeforeListing(reach, maxWorkers, n, k, k);
    } else {
      s := ListLate(reach, maxWorkers, n, k, j - 1);
      s := FinishLowest(reach, s, n, k, k + j - 1, 2 * k);
    }
  }

  /** The number of workers that stale reads can add to a limit. */
  function Excess(maxWorkers: nat): nat { if maxWorkers < MAX_CLIENTS - 1 then maxWorkers else MAX_CLIENTS - 1 }

  lemma ReachIsClosed(reach: iset<State>)
    requires reach == iset s | Reachable(s)
    ensures Closed(reach)
  {
    forall s, e | s in reach && Enabled(s, e) ensures Apply(s, e) in reach { ReachableStep(s, e); }
  }

  /** In every interleaving the excess is at most the limit itself, and at most one less than the
      client semaphore has permits. */
  lemma OvershootIsBounded(s: State)
    requires Reachable(s)
    ensures |s.workers| <= s.maxWorkers + Excess(s.maxWorkers)
  {
    ReachableInv(s);
    LoadIsBounded(s);
  }

  /** For every limit some interleaving ends with that many workers too many. */
  lemma LimitIsExceeded(maxWorkers: nat) returns (s: State)
    requires IsLimit(maxWorkers)
    ensures Reachable(s) && s.maxWorkers == maxWorkers && |s.workers| == maxWorkers + Excess(maxWorkers)
  {
    var reach := iset s | Reachable(s);
    ReachIsClosed(reach);
    assert IsRun(Init(maxWorkers), []) && Final(Init(maxWorkers), []) == Init(maxWorkers);
    s := ListLate(reach, maxWorkers, maxWorkers - Excess(maxWorkers), Excess(maxWorkers), Excess(maxWorkers));
  }

  // ----- a failed clean-up leaves its network to the next owner of the index -----

  lemma SpawnFails(s: State, t: TaskId, id: WorkerId, index: nat, run: nat)
    requires t in s.tasks && s.tasks[t] == Building(id, index, run, 2)
    ensures Enabled(s, Fail(t, OpenVpnNotSpawned))
    ensures Apply(s, Fail(t, OpenVpnNotSpawned)) == At(s, t, Unwinding(id, index, run, [Network(index), Directory(id)]))
  {
  }

  lemma FirstReleased(s: State, t: TaskId, id: WorkerId, index: nat, run: nat, todo: seq<Resource>, ok: bool)
    requires todo != [] && (!ok ==> todo[0] in s.world && !todo[0].Monitor?)
    ensures var u := At(s, t, Unwinding(id, index, run, todo));
            && Enabled(u, ReleaseNext(t, ok))
            && Apply(u, ReleaseNext(t, ok)) == At(s.(world := if ok then s.world - {todo[0]} else s.world), t,
                                                  Unwinding(id, index, run, todo[1..]))
  {
    var u := At(s, t, Unwinding(id, index, run, todo));
    assert u.tasks[t := Unwinding(id, index, run, todo[1..])] == s.tasks[t := Unwinding(id, index, run, todo[1..])];
  }

  /** A start that cannot spawn its tunnel process, and whose network resists. */
  lemma NetworkResists(reach: iset<State>, s: State, t: TaskId, id: WorkerId, index: nat, run: nat) returns (s': State)
    requires Closed(reach) && s in reach && t in s.tasks && s.tasks[t] == Building(id, index, run, 2) && Network(index) in s.world
    ensures s' in reach && s'.maxWorkers == s.maxWorkers && index in s'.free && Network(index) in s'.world
  {
    var todo := [Network(index), Directory(id)];
    SpawnFails(s, t, id, index, run);
    FirstReleased(s, t, id, index, run, todo, false);
    assert todo[1..] == [Directory(id)];
    FirstReleased(s, t, id, index, run, [Directory(id)], true);
    var w := s.(world := s.world - {Directory(id)});
    assert [Directory(id)][1..] == [];
    assert At(s, t, Unwinding(id, index, run, todo)) in reach;
    assert At(s, t, Unwinding(id, index, run, [Directory(id)])) in reach;
    s' := FreeIndex(reach, w, t, id, index, run);
  }

  lemma FreeIndex(reach: iset<State>, s: State, t: TaskId, id: WorkerId, index: nat, run: nat) returns (s': State)
    requires Closed(reach) && At(s, t, Unwinding(id, index, run, [])) in reach
    ensures s' in reach && s'.maxWorkers == s.maxWorkers && index in s'.free && s'.world == s.world
  {
    var u := At(s, t, Unwinding(id, index, run, []));
    assert Enabled(u, DropLease(t));
    s' := Apply(u, DropLease(t));
    assert s'.free[|s.free|] == index;
  }

  lemma BuildNetwork(reach: iset<State>, s: State, t: TaskId, id: WorkerId) returns (s': State)
    requires Closed(reach) && s in reach && !s.closing && t !in s.tasks && |s.tasks| < MAX_CLIENTS && FreshOnly(s)
    requires id !in s.starting && id !in s.workers && |s.workers| + |s.starting| < s.maxWorkers
    requires Directory(id) !in s.world && Network(s.next) !in s.world
    ensures s' in reach && s'.maxWorkers == s.maxWorkers && t in s'.tasks
    ensures s'.tasks[t] == Building(id, s.next, s.runs, 2) && Network(s.next) in s'.world
  {
    ReserveQuietly(reach, s, t, id);
    var a := At(s.(starting := s.starting + {id}), t, Admitted(id));
    DrawOne(a, t, id);
    BuildUp(reach, Drew(a, t), t, id, s.next, s.runs, 2);
    s' := BuiltUpTo(Drew(a, t), t, id, s.next, s.runs, 2);
  }

  /** For every limit some interleaving frees an index whose network still exists. */
  lemma FreeIndexCanKeepItsNetwork(maxWorkers: nat) returns (s: State)
    requires IsLimit(maxWorkers)
    ensures Reachable(s) && s.maxWorkers == maxWorkers && 1 in s.free && Network(1) in s.world
  {
    var reach := iset s | Reachable(s);
    ReachIsClosed(reach);
    var init := Init(maxWorkers);
    assert IsRun(init, []) && Final(init, []) == init;
    s := BuildNetwork(reach, init, 0, 0);
    s := NetworkResists(reach, s, 0, 0, 1, 0);
  }
}
