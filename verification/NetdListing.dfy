/** Whoever `reserve` has let in can end up listed: the other half of the capacity condition. */
module NetdListing {
  import opened Wrappers
  import opened NetdProtocol
  import opened NetdInvariants
  import opened NetdResources
  import opened NetdTheorems
  import opened NetdCapacity
  import opened NetdRuns

  // ----- starts in progress can be finished -----

  /** Everything that exists belongs to a listed worker or to a start in progress. */
  ghost predicate Tidy(s: State) {
    forall r :: r in s.world ==> exists o :: Owns(s, o, r) && (o.Client? ==> o.task in InProgress(s))
  }

  /** The next part of a start in progress does not exist yet. */
  lemma NextPartIsNew(s: State, t: TaskId)
    requires Inv(s) && Tidy(s) && t in s.tasks && s.tasks[t].Building? && s.tasks[t].made < 5
    ensures NextPart(s.tasks[t]).Directory? || NextPart(s.tasks[t]).Network? ==> NextPart(s.tasks[t]) !in s.world
  {
    var p := s.tasks[t];
    var r := NextPart(p);
    PartIsAmong(p.id, p.index, p.run, p.made, r);
    if (r.Directory? || r.Network?) && r in s.world {
      var o :| Owns(s, o, r) && (o.Client? ==> o.task in InProgress(s));
      OwnerIsItself(s, t, o, r);
    }
  }

  lemma OwnerIsItself(s: State, t: TaskId, o: Owner, r: Resource)
    requires Inv(s) && t in s.tasks && s.tasks[t].Building? && r in {Directory(s.tasks[t].id), Network(s.tasks[t].index)}
    requires Owns(s, o, r) && (o.Client? ==> o.task in InProgress(s))
    ensures o == Client(t)
  {
    var p := s.tasks[t];
    if r.Network? {
      var i := OwnerHasLease(s, o, r);
    } else if o.Client? {
      HeldIsPart(s.tasks[o.task], r);
      PartFits(s.tasks[o.task].id, s.tasks[o.task].index, s.tasks[o.task].run, r);
      assert Holds(s, t, p.id) && Holds(s, o.task, p.id);
    } else {
      PartFits(o.worker, s.workers[o.worker].index, s.workers[o.worker].run, r);
    }
  }

  lemma TidyAcquired(s: State, t: TaskId)
    requires Tidy(s) && Enabled(s, Acquire(t))
    ensures Tidy(Apply(s, Acquire(t))) && InProgress(Apply(s, Acquire(t))) == InProgress(s)
  {
    var p, s' := s.tasks[t], Acquired(s, t);
    forall u ensures u in InProgress(s') <==> u in InProgress(s) { if u != t { OtherTasksStay(s, Acquire(t), u); } }
    forall r | r in s'.world ensures exists o :: Owns(s', o, r) && (o.Client? ==> o.task in InProgress(s')) {
      PartIsAmong(p.id, p.index, p.run, p.made, r);
      PartIsAmong(p.id, p.index, p.run, p.made + 1, r);
      if r == NextPart(p) {
        assert Owns(s', Client(t), r);
      } else {
        var o :| Owns(s, o, r) && (o.Client? ==> o.task in InProgress(s));
        if o != Client(t) { OtherOwnersStay(s, Acquire(t), o, r); }
        assert Owns(s', o, r);
      }
    }
  }

  lemma TidyAllocated(s: State, t: TaskId)
    requires Tidy(s) && Enabled(s, Allocate(t)) && UsableIndex(DrawnIndex(s))
    ensures Tidy(Apply(s, Allocate(t))) && InProgress(Apply(s, Allocate(t))) == InProgress(s)
  {
    var s' := Allocated(s, t);
    forall u ensures u in InProgress(s') <==> u in InProgress(s) { if u != t { OtherTasksStay(s, Allocate(t), u); } }
    forall r | r in s'.world ensures exists o :: Owns(s', o, r) && (o.Client? ==> o.task in InProgress(s')) {
      var o :| Owns(s, o, r) && (o.Client? ==> o.task in InProgress(s));
      assert o != Client(t);
      OtherOwnersStay(s, Allocate(t), o, r);
    }
  }

  lemma TidyListed(s: State, t: TaskId)
    requires Tidy(s) && Enabled(s, Insert(t)) && s.tasks[t].id !in s.workers
    ensures Tidy(Apply(s, Insert(t)))
  {
    var p, s' := s.tasks[t], Listed(s, t);
    ListingStep(s, t);
    AllParts(p.id, p.index, p.run);
    forall r | r in s'.world ensures exists o :: Owns(s', o, r) && (o.Client? ==> o.task in InProgress(s')) {
      var o :| Owns(s, o, r) && (o.Client? ==> o.task in InProgress(s));
      if o.Client? && o.task != t { OtherTasksStay(s, Insert(t), o.task); }
      assert Owns(s', if o == Client(t) then Running(p.id) else o, r);
    }
  }

  ghost predicate CanReach(s: State, s': State) { exists es :: IsRun(s, es) && Final(s, es) == s' }

  lemma ReachSelf(s: State)
    ensures CanReach(s, s)
  {
    assert IsRun(s, []) && Final(s, []) == s;
  }

  lemma ReachFirst(s: State, e: Event, s': State)
    requires Enabled(s, e) && CanReach(Apply(s, e), s')
    ensures CanReach(s, s')
  {
    var es :| IsRun(Apply(s, e), es) && Final(Apply(s, e), es) == s';
    RunCons(s, e, es);
  }

  lemma ReachFurther(s: State, m: State, s': State)
    requires CanReach(s, m) && CanReach(m, s')
    ensures CanReach(s, s')
  {
    var es :| IsRun(s, es) && Final(s, es) == m;
    var fs :| IsRun(m, fs) && Final(m, fs) == s';
    RunThen(s, es, fs);
  }

  /** `s'` continues `s`, with one start in progress listed. */
  ghost predicate OneListed(s: State, t: TaskId, s': State) {
    && CanReach(s, s') && Inv(s') && Tidy(s') && s'.maxWorkers == s.maxWorkers && s'.closing == s.closing
    && |s'.workers| == |s.workers| + 1 && InProgress(s') == InProgress(s) - {t}
  }

  lemma ListingCounts(s: State, t: TaskId)
    requires Enabled(s, Insert(t)) && s.tasks[t].id !in s.workers
    ensures |Apply(s, Insert(t)).workers| == |s.workers| + 1
  {
    var s' := Listed(s, t);
    assert s'.workers.Keys == s.workers.Keys + {s.tasks[t].id};
    assert |s'.workers| == |s'.workers.Keys| && |s.workers| == |s.workers.Keys|;
  }

  lemma ListComplete(s: State, t: TaskId)
    requires Inv(s) && Tidy(s) && Enabled(s, Insert(t))
    ensures OneListed(s, t, Apply(s, Insert(t)))
  {
    InvKept(s, Insert(t));
    assert s.tasks[t].Checked();
    TidyListed(s, t);
    ListingStep(s, t);
    ListingCounts(s, t);
    FlagsStay(s, Insert(t));
    ReachSelf(Apply(s, Insert(t)));
    ReachFirst(s, Insert(t), Apply(s, Insert(t)));
  }

  lemma {:induction false} ListBuilding(s: State, t: TaskId) returns (s': State)
    requires Inv(s) && Tidy(s) && t in s.tasks && s.tasks[t].Building?
    ensures OneListed(s, t, s')
    decreases 5 - s.tasks[t].made
  {
    assert PhaseInv(s.tasks[t]);
    if s.tasks[t].made == 5 {
      ListComplete(s, t);
      s' := Apply(s, Insert(t));
    } else {
      NextPartIsNew(s, t);
      var m := Apply(s, Acquire(t));
      InvKept(s, Acquire(t));
      TidyAcquired(s, t);
      FlagsStay(s, Acquire(t));
      s' := ListBuilding(m, t);
      ReachFirst(s, Acquire(t), s');
    }
  }

  lemma ListInProgress(s: State, t: TaskId) returns (s': State)
    requires Inv(s) && Tidy(s) && t in InProgress(s)
    ensures OneListed(s, t, s')
  {
    if s.tasks[t].Building? {
      s' := ListBuilding(s, t);
    } else {
      if s.free == [] { FreshIndexIsLiveCount(s, t); } else { assert DrawnIndex(s) in s.free; }
      var m := Apply(s, Allocate(t));
      AllocateEffect(s, t);
      InvKept(s, Allocate(t));
      TidyAllocated(s, t);
      FlagsStay(s, Allocate(t));
      s' := ListBuilding(m, t);
      ReachFirst(s, Allocate(t), s');
    }
  }

  lemma {:induction false} TidyLoadIsListed(s: State) returns (s': State)
    requires Inv(s) && Tidy(s) && !s.closing
    ensures CanReach(s, s') && s'.maxWorkers == s.maxWorkers && |s'.workers| == Load(s)
    decreases |InProgress(s)|
  {
    if InProgress(s) == {} {
      ReachSelf(s);
      s' := s;
    } else {
      var t :| t in InProgress(s);
      var m := ListInProgress(s, t);
      s' := TidyLoadIsListed(m);
      ReachFurther(s, m, s');
    }
  }

  // ----- clean-ups under way can be finished first -----

  function Cleaning(s: State): set<TaskId> { set t | t in s.tasks && s.tasks[t].CleansUp() }

  ghost predicate AllOwned(s: State) { forall r :: r in s.world ==> Owned(s, r) }

  lemma OthersStayOwned(s: State, t: TaskId, r: Resource)
    requires t in Cleaning(s) && Owned(s, r) && r !in s.tasks[t].todo
    ensures Owned(CleanedUp(s, t, {}), r)
  {
    var o :| Owns(s, o, r);
    assert Owns(CleanedUp(s, t, {}), o, r);
  }

  lemma CleanUpCanFinish(s: State, t: TaskId)
    requires Inv(s) && t in Cleaning(s)
    ensures CanReach(s, CleanedUp(s, t, {})) && Inv(CleanedUp(s, t, {}))
  {
    CleanUpReturnsEverything(s, t, {});
    InvAlongRun(s, CleanUpEvents(t, s.tasks[t].todo, {}) + ReturnEvents(t, s.tasks[t]));
  }

  lemma CleanUpKeepsLoad(s: State, t: TaskId)
    requires t in Cleaning(s)
    ensures var s' := CleanedUp(s, t, {});
            && Cleaning(s') == Cleaning(s) - {t} && Load(s') == Load(s)
            && s'.maxWorkers == s.maxWorkers && s'.closing == s.closing
  {
    assert InProgress(CleanedUp(s, t, {})) == InProgress(s);
  }

  lemma CleanUpKeepsOwners(s: State, t: TaskId)
    requires AllOwned(s) && t in Cleaning(s)
    ensures AllOwned(CleanedUp(s, t, {}))
  {
    forall r | r in CleanedUp(s, t, {}).world ensures Owned(CleanedUp(s, t, {}), r) { OthersStayOwned(s, t, r); }
  }

  lemma OwnersAreInProgress(s: State)
    requires AllOwned(s) && Cleaning(s) == {}
    ensures Tidy(s)
  {
    forall r | r in s.world ensures exists o :: Owns(s, o, r) && (o.Client? ==> o.task in InProgress(s)) {
      var o :| Owns(s, o, r);
      if o.Client? { assert o.task !in Cleaning(s); }
    }
  }

  /** Whatever was let in can be listed: from a state in which everything that exists has an owner and
      that is not shutting down, some continuation lists exactly the load. */
  lemma {:induction false} LoadCanBeListed(s: State) returns (s': State)
    requires Inv(s) && AllOwned(s) && !s.closing
    ensures CanReach(s, s') && s'.maxWorkers == s.maxWorkers && |s'.workers| == Load(s)
    decreases |Cleaning(s)|
  {
    if Cleaning(s) == {} {
      OwnersAreInProgress(s);
      s' := TidyLoadIsListed(s);
    } else {
      var t :| t in Cleaning(s);
      var m := CleanedUp(s, t, {});
      CleanUpCanFinish(s, t);
      CleanUpKeepsLoad(s, t);
      CleanUpKeepsOwners(s, t);
      s' := LoadCanBeListed(m);
      ReachFurther(s, m, s');
    }
  }

  /** In every run in which no clean-up failed and no shutdown has begun: once listed workers and
      starts that were let in exceed the limit, some continuation lists that many. */
  lemma {:induction false} ExcessLoadIsListed(maxWorkers: nat, es: seq<Event>) returns (s': State)
    requires IsLimit(maxWorkers) && IsRun(Init(maxWorkers), es) && NoCleanUpFails(es) && !Final(Init(maxWorkers), es).closing
    ensures CanReach(Final(Init(maxWorkers), es), s') && |s'.workers| == Load(Final(Init(maxWorkers), es))
  {
    var s := Final(Init(maxWorkers), es);
    InitInv(maxWorkers);
    InvAlongRun(Init(maxWorkers), es);
    forall r | r in s.world ensures Owned(s, r) { WithoutFailuresNothingIsLeft(maxWorkers, es, r); }
    s' := LoadCanBeListed(s);
  }
}
