/** How many workers can run at once: the exact effect of the two separate reads in `reserve`. */
module NetdCapacity {
  import opened Wrappers
  import opened NetdProtocol
  import opened NetdInvariants

  // ----- admitted and counted starts -----

  predicate IsAdmitted(p: Phase) { p.Admitted? || p.Building? }

  /** Starts that were let in and are not listed yet. */
  function InProgress(s: State): set<TaskId> { set t | t in s.tasks && IsAdmitted(s.tasks[t]) }

  /** Starts between their two reads. */
  function Between(s: State): set<TaskId> { set t | t in s.tasks && s.tasks[t].Counted? }

  /** Listed plus let in. */
  function Load(s: State): nat { |s.workers| + |InProgress(s)| }

  lemma {:induction false} HoldersCount(s: State, ts: set<TaskId>, ids: set<WorkerId>)
    requires forall t :: t in ts ==> t in s.tasks && s.tasks[t].HasReservation() && s.tasks[t].id in ids
    requires forall t, u, id :: t in ts && u in ts && Holds(s, t, id) && Holds(s, u, id) ==> t == u
    ensures |ts| <= |ids|
    decreases |ts|
  {
    if ts != {} {
      var t :| t in ts;
      var id := s.tasks[t].id;
      forall u | u in ts - {t} ensures s.tasks[u].id != id { assert Holds(s, t, id) && Holds(s, u, s.tasks[u].id); }
      HoldersCount(s, ts - {t}, ids - {id});
    }
  }

  /** Every start in progress or between its reads is reserved. */
  lemma StartsAreReserved(s: State)
    requires ReservationInv(s)
    ensures |InProgress(s)| + |Between(s)| <= |s.starting|
  {
    var ts := InProgress(s) + Between(s);
    forall t | t in ts ensures Holds(s, t, s.tasks[t].id) {}
    HoldersCount(s, ts, s.starting);
    assert InProgress(s) !! Between(s);
  }

  // ----- what the steps do to the load -----

  predicate Quiet(e: Event) { !e.ReadWorkers? && !e.ReadStarting? && !e.Insert? }

  lemma OwnQuietPhase(s: State, e: Event)
    requires Enabled(s, e) && e.ByTask() && Quiet(e) && e.task in Apply(s, e).tasks
    ensures IsAdmitted(Apply(s, e).tasks[e.task]) ==> e.task in s.tasks && IsAdmitted(s.tasks[e.task])
    ensures !Apply(s, e).tasks[e.task].Counted?
  {
  }

  lemma QuietPhase(s: State, e: Event, t: TaskId)
    requires Enabled(s, e) && Quiet(e) && t in Apply(s, e).tasks
    ensures IsAdmitted(Apply(s, e).tasks[t]) ==> t in s.tasks && IsAdmitted(s.tasks[t])
    ensures Apply(s, e).tasks[t].Counted? ==> t in s.tasks && s.tasks[t] == Apply(s, e).tasks[t]
  {
    if e.ByTask() && e.task == t { OwnQuietPhase(s, e); } else { OtherTasksStay(s, e, t); }
  }

  /** `s'` has no more workers and no other starts than `s`. */
  ghost predicate NoMore(s: State, s': State) {
    && s'.maxWorkers == s.maxWorkers && |s'.workers| <= |s.workers| && InProgress(s') <= InProgress(s)
    && forall t :: t in Between(s') ==> t in Between(s) && s'.tasks[t] == s.tasks[t]
  }

  lemma QuietStep(s: State, e: Event)
    requires Enabled(s, e) && Quiet(e)
    ensures NoMore(s, Apply(s, e))
  {
    MaxWorkersStays(s, e);
    WorkersChange(s, e);
    SubsetSize(Apply(s, e).workers.Keys, s.workers.Keys);
    forall t | t in InProgress(Apply(s, e)) ensures t in InProgress(s) { QuietPhase(s, e, t); }
    forall t | t in Between(Apply(s, e)) ensures t in Between(s) && Apply(s, e).tasks[t] == s.tasks[t] { QuietPhase(s, e, t); }
  }

  lemma NoMoreLoad(s: State, s': State)
    requires NoMore(s, s')
    ensures Load(s') <= Load(s) && |InProgress(s')| <= |InProgress(s)|
  {
    SubsetSize(InProgress(s'), InProgress(s));
  }

  lemma CountingStep(s: State, t: TaskId)
    requires Enabled(s, ReadWorkers(t))
    ensures var s' := Apply(s, ReadWorkers(t));
            && s'.maxWorkers == s.maxWorkers && s'.workers == s.workers && InProgress(s') == InProgress(s)
            && (forall u :: u in Between(s') && u != t ==> u in Between(s) && s'.tasks[u] == s.tasks[u])
            && (t in Between(s') ==> s'.tasks[t].running == |s.workers|)
  {
  }

  /** The second read lets the start in iff the sum it sees is within the limit. */
  lemma AdmissionStep(s: State, t: TaskId)
    requires Enabled(s, ReadStarting(t))
    ensures var s' := Apply(s, ReadStarting(t));
            && s'.maxWorkers == s.maxWorkers && s'.workers == s.workers && Between(s') == Between(s) - {t}
            && (forall u :: u in Between(s') ==> s'.tasks[u] == s.tasks[u])
            && InProgress(s') == if s.tasks[t].running + |s.starting| <= s.maxWorkers then InProgress(s) + {t} else InProgress(s)
  {
  }

  lemma ListingWorkers(workers: map<WorkerId, Process>, workers': map<WorkerId, Process>, id: WorkerId)
    requires workers'.Keys <= workers.Keys + {id}
    ensures |workers'| <= |workers| + 1
  {
    SubsetSize(workers'.Keys, workers.Keys + {id});
    assert |workers'| == |workers'.Keys| && |workers| == |workers.Keys|;
  }

  lemma ListingStep(s: State, t: TaskId)
    requires Enabled(s, Insert(t))
    ensures var s' := Apply(s, Insert(t));
            && s'.maxWorkers == s.maxWorkers && |s'.workers| <= |s.workers| + 1
            && InProgress(s') == InProgress(s) - {t} && t in InProgress(s)
            && forall u :: u in Between(s') ==> u in Between(s) && s'.tasks[u] == s.tasks[u]
  {
    var s' := Listed(s, t);
    ListingWorkers(s.workers, s'.workers, s.tasks[t].id);
    forall u ensures u in InProgress(s') <==> u in InProgress(s) && u != t { if u != t { OtherTasksStay(s, Insert(t), u); } }
    forall u | u in Between(s') ensures u in Between(s) && s'.tasks[u] == s.tasks[u] {
      if u != t { OtherTasksStay(s, Insert(t), u); }
    }
  }

  // ----- fresh reads keep the limit -----

  /** A start that is about to be let in sees no fewer workers than there are. */
  predicate SeesAll(s: State, e: Event) {
    e.ReadStarting? && e.task in s.tasks && s.tasks[e.task].Counted? ==> |s.workers| <= s.tasks[e.task].running
  }

  lemma LoadKept(s: State, e: Event)
    requires ReservationInv(s) && Load(s) <= s.maxWorkers && Enabled(s, e) && SeesAll(s, e)
    ensures Load(Apply(s, e)) <= s.maxWorkers && Apply(s, e).maxWorkers == s.maxWorkers
  {
    match e {
      case ReadWorkers(t) => CountingStep(s, t);
      case ReadStarting(t) =>
        AdmissionStep(s, t);
        StartsAreReserved(s);
        assert t in Between(s);
        assert |Between(s)| >= 1;
      case Insert(t) => ListingStep(s, t);
      case _ =>
        QuietStep(s, e);
        NoMoreLoad(s, Apply(s, e));
    }
  }

  ghost predicate ReadsAreFresh(s: State, es: seq<Event>)
    requires IsRun(s, es)
    decreases |es|
  {
    es == [] || (SeesAll(s, es[0]) && ReadsAreFresh(Apply(s, es[0]), es[1..]))
  }

  lemma {:induction false} LoadAlongRun(s: State, es: seq<Event>)
    requires ReservationInv(s) && Load(s) <= s.maxWorkers && IsRun(s, es) && ReadsAreFresh(s, es)
    ensures Load(Final(s, es)) <= s.maxWorkers && Final(s, es).maxWorkers == s.maxWorkers
    decreases |es|
  {
    if es != [] {
      LoadKept(s, es[0]);
      ReservationKept(s, es[0]);
      LoadAlongRun(Apply(s, es[0]), es[1..]);
    }
  }

  /** In every interleaving whose second reads are not stale, listed workers plus starts that were
      let in never exceed the limit. */
  lemma {:induction false} FreshReadsKeepLimit(maxWorkers: nat, es: seq<Event>)
    requires IsRun(Init(maxWorkers), es) && ReadsAreFresh(Init(maxWorkers), es)
    ensures Load(Final(Init(maxWorkers), es)) <= maxWorkers
  {
    assert InProgress(Init(maxWorkers)) == {};
    LoadAlongRun(Init(maxWorkers), es);
  }

  /** Every second read directly follows the first one of the same start: `reserve` is atomic. */
  predicate IsUninterrupted(es: seq<Event>, last: Option<Event>)
    decreases |es|
  {
    es == [] ||
    ((es[0].ReadStarting? ==> last == Some(ReadWorkers(es[0].task))) && IsUninterrupted(es[1..], Some(es[0])))
  }

  /** What the first read left for the second. */
  predicate JustRead(s: State, last: Option<Event>) {
    last.Some? && last.value.ReadWorkers? && last.value.task in s.tasks && s.tasks[last.value.task].Counted? ==>
      s.tasks[last.value.task].running == |s.workers|
  }

  lemma ReadIsJust(s: State, e: Event)
    requires Enabled(s, e)
    ensures JustRead(Apply(s, e), Some(e))
  {
    if e.ReadWorkers? { CountingStep(s, e.task); }
  }

  lemma {:induction false} UninterruptedIsFresh(s: State, es: seq<Event>, last: Option<Event>)
    requires IsRun(s, es) && IsUninterrupted(es, last) && JustRead(s, last)
    ensures ReadsAreFresh(s, es)
    decreases |es|
  {
    if es != [] {
      ReadIsJust(s, es[0]);
      UninterruptedIsFresh(Apply(s, es[0]), es[1..], Some(es[0]));
    }
  }

  // ----- in every interleaving -----

  /** `early` starts read before the last one was let in.  They and the starts in progress fit the
      limit together; a start that read later saw all workers but as many as are in progress. */
  ghost predicate Split(s: State, early: set<TaskId>) {
    && early <= Between(s)
    && |InProgress(s)| + |early| <= s.maxWorkers
    && Load(s) + |early| <= 2 * s.maxWorkers
    && forall t :: t in Between(s) - early ==> Load(s) + |early| <= s.maxWorkers + s.tasks[t].running
  }

  lemma SplitShrinks(s: State, s': State, early: set<TaskId>)
    requires Split(s, early) && NoMore(s, s')
    ensures Split(s', early * Between(s'))
  {
    NoMoreLoad(s, s');
    SubsetSize(early * Between(s'), early);
  }

  lemma SplitCounted(s: State, t: TaskId, early: set<TaskId>)
    requires Split(s, early) && Enabled(s, ReadWorkers(t))
    ensures Split(Apply(s, ReadWorkers(t)), early * Between(Apply(s, ReadWorkers(t))))
  {
    var s' := Apply(s, ReadWorkers(t));
    CountingStep(s, t);
    SubsetSize(early * Between(s'), early);
  }

  lemma SplitListed(s: State, t: TaskId, early: set<TaskId>)
    requires Split(s, early) && Enabled(s, Insert(t))
    ensures Split(Apply(s, Insert(t)), early * Between(Apply(s, Insert(t))))
  {
    var s' := Apply(s, Insert(t));
    ListingStep(s, t);
    SubsetSize(early * Between(s'), early);
    assert |InProgress(s')| == |InProgress(s)| - 1;
  }

  lemma SplitRefused(s: State, t: TaskId, early: set<TaskId>)
    requires Split(s, early) && Enabled(s, ReadStarting(t)) && s.tasks[t].running + |s.starting| > s.maxWorkers
    ensures Split(Apply(s, ReadStarting(t)), early - {t})
  {
    AdmissionStep(s, t);
    SubsetSize(early - {t}, early);
  }

  /** An early start that is let in changes sides. */
  lemma SplitOldAdmitted(s: State, t: TaskId, early: set<TaskId>)
    requires Split(s, early) && Enabled(s, ReadStarting(t)) && s.tasks[t].running + |s.starting| <= s.maxWorkers && t in early
    ensures Split(Apply(s, ReadStarting(t)), early - {t})
  {
    AdmissionStep(s, t);
    assert |early - {t}| == |early| - 1;
    assert |InProgress(s) + {t}| <= |InProgress(s)| + 1;
  }

  /** A later start that is let in has seen everybody's reservation: all others become early. */
  lemma SplitNewAdmitted(s: State, t: TaskId, early: set<TaskId>)
    requires ReservationInv(s) && Split(s, early) && Enabled(s, ReadStarting(t))
    requires s.tasks[t].running + |s.starting| <= s.maxWorkers && t !in early
    ensures Split(Apply(s, ReadStarting(t)), Between(s) - {t})
  {
    AdmissionStep(s, t);
    StartsAreReserved(s);
    assert t in Between(s) && t !in InProgress(s);
    assert |Between(s) - {t}| == |Between(s)| - 1;
    assert |InProgress(s) + {t}| == |InProgress(s)| + 1;
    SubsetSize(early, Between(s));
  }

  lemma SplitKept(s: State, e: Event, early: set<TaskId>) returns (early': set<TaskId>)
    requires ReservationInv(s) && Split(s, early) && Enabled(s, e)
    ensures Split(Apply(s, e), early')
  {
    early' := early * Between(Apply(s, e));
    match e {
      case ReadWorkers(t) => SplitCounted(s, t, early);
      case ReadStarting(t) =>
        early' := early - {t};
        if s.tasks[t].running + |s.starting| > s.maxWorkers { SplitRefused(s, t, early); }
        else if t in early { SplitOldAdmitted(s, t, early); }
        else { early' := Between(s) - {t}; SplitNewAdmitted(s, t, early); }
      case Insert(t) => SplitListed(s, t, early);
      case _ =>
        QuietStep(s, e);
        SplitShrinks(s, Apply(s, e), early);
    }
  }

  lemma {:induction false} SplitAlongRun(s: State, es: seq<Event>, early: set<TaskId>)
    requires ReservationInv(s) && Split(s, early) && IsRun(s, es)
    ensures Load(Final(s, es)) <= 2 * Final(s, es).maxWorkers
    decreases |es|
  {
    if es != [] {
      var early' := SplitKept(s, es[0], early);
      ReservationKept(s, es[0]);
      SplitAlongRun(Apply(s, es[0]), es[1..], early');
    }
  }

  /** In every interleaving at most twice the limit is listed or let in. */
  lemma LoadIsBounded(s: State)
    requires Reachable(s)
    ensures Load(s) <= 2 * s.maxWorkers
  {
    var init := Init(s.maxWorkers);
    var es :| IsRun(init, es) && Final(init, es) == s;
    assert InProgress(init) == {} && Between(init) == {};
    assert Split(init, {});
    SplitAlongRun(init, es, {});
  }

  // ----- one uninterrupted reserve -----

  /** `reserve` of an accepted client with its early returns, as one step. */
  function Reserved(s: State, t: TaskId, id: WorkerId): State
    requires Enabled(s, BeginStart(t, id))
  {
    var s1 := Apply(s, BeginStart(t, id));
    if t !in s1.tasks then s1
    else
      var s2 := Apply(s1, ReadWorkers(t));
      if s2.tasks[t].Releasing? then Apply(s2, DropReservation(t))
      else
        var s3 := Apply(s2, ReadStarting(t));
        if s3.tasks[t].Releasing? then Apply(s3, DropReservation(t)) else s3
  }

  lemma BackToStart(s: State, s': State, t: TaskId, id: WorkerId)
    requires t in s.tasks && id !in s.starting && s' == At(s.(starting := s.starting + {id}), t, Releasing(id))
    ensures Apply(s', DropReservation(t)) == Gone(s, t)
  {
    assert s'.tasks - {t} == s.tasks - {t};
    assert s'.starting - {id} == s.starting;
  }

  lemma ReserveReads(s: State, t: TaskId, id: WorkerId)
    requires Enabled(s, BeginStart(t, id)) && !s.closing && id !in s.starting
    ensures var s1 := Apply(s, BeginStart(t, id));
            && Enabled(s1, ReadWorkers(t))
            && Apply(s1, ReadWorkers(t)) == At(s.(starting := s.starting + {id}), t,
                                               if id in s.workers then Releasing(id) else Counted(id, |s.workers|))
  {
    var s2 := Apply(Apply(s, BeginStart(t, id)), ReadWorkers(t));
    assert s2.tasks == s.tasks[t := s2.tasks[t]];
  }

  lemma ReserveCompares(s: State, t: TaskId, id: WorkerId, running: nat)
    ensures var s' := At(s, t, Counted(id, running));
            && Enabled(s', ReadStarting(t))
            && Apply(s', ReadStarting(t))
               == At(s, t, if running + |s.starting| > s.maxWorkers then Releasing(id) else Admitted(id))
  {
    var s' := At(s, t, Counted(id, running));
    var p := if running + |s.starting| > s.maxWorkers then Releasing(id) else Admitted(id);
    assert s'.tasks[t := p] == s.tasks[t := p];
  }

  /** Exactly when an uninterrupted `reserve` admits a worker; a refusal leaves nothing but the
      client's end. */
  lemma ReserveAdmits(s: State, t: TaskId, id: WorkerId)
    requires Enabled(s, BeginStart(t, id))
    ensures var admitted := !s.closing && id !in s.starting && id !in s.workers && |s.workers| + |s.starting| < s.maxWorkers;
            Reserved(s, t, id) ==
            if admitted then At(s.(starting := s.starting + {id}), t, Admitted(id)) else Gone(s, t)
  {
    if !s.closing && id !in s.starting {
      var s1 := s.(starting := s.starting + {id});
      ReserveReads(s, t, id);
      BackToStart(s, At(s1, t, Releasing(id)), t, id);
      if id !in s.workers { ReserveCompares(s1, t, id, |s.workers|); }
    }
  }
}
