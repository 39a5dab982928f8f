/** Safety of the connection actor in every run: an independent monitor accepts everything the
    actor does, and its three views of the connection always agree. */
module ActorSafety {
  import opened Wrappers
  import opened Nodes
  import opened ActorProtocol

  // ----- the monitor -----

  /** What an outside observer remembers about a trace. */
  datatype Monitor = Monitor(
    requested: set<WorkerId>,
    pending: Option<WorkerId>,
    started: set<WorkerId>,
    stopped: set<WorkerId>,
    published: Option<WorkerId>)

  const NOTHING_SEEN := Monitor({}, None, {}, {}, None)

  /** The rules.  Clients are routed only to a started worker that nobody asked to stop; while a
      replacement starts the route does not change; a worker is stopped at most once and never
      while it is the route; the shown state agrees with the route. */
  predicate Accepts(m: Monitor, e: Effect) {
    match e
    case StartRequested(w) => m.pending.None? && w !in m.requested
    case Started(w) => m.pending == Some(w)
    case StartFailed(w) => m.pending == Some(w)
    case Publish(socket) =>
      m.pending.None? && (socket.Some? ==> socket.value.worker in m.started && socket.value.worker !in m.stopped)
    case StopRequested(w) => w in m.started && w !in m.stopped && m.published != Some(w)
    case Show(Connected(_, w, _)) => m.pending.None? && m.published == Some(w)
    case Show(Connecting(_, w, _)) => m.pending.None? && w !in m.requested
    case Show(_) => m.pending.None? && m.published.None?
  }

  function Next(m: Monitor, e: Effect): Monitor {
    match e
    case StartRequested(w) => m.(requested := m.requested + {w}, pending := Some(w))
    case Started(w) => m.(pending := None, started := m.started + {w})
    case StartFailed(_) => m.(pending := None)
    case Publish(socket) => m.(published := if socket.Some? then Some(socket.value.worker) else None)
    case StopRequested(w) => m.(stopped := m.stopped + {w})
    case Show(_) => m
  }

  /** The monitor's memory after a trace, or `None` once a rule was broken. */
  function Observe(m: Option<Monitor>, trace: seq<Effect>): Option<Monitor>
    decreases |trace|
  {
    if trace == [] then m
    else if m.None? || !Accepts(m.value, trace[0]) then None
    else Observe(Some(Next(m.value, trace[0])), trace[1..])
  }

  lemma {:induction false} ObserveAppend(m: Option<Monitor>, a: seq<Effect>, b: seq<Effect>)
    ensures Observe(m, a + b) == Observe(Observe(m, a), b)
    decreases |a|
  {
    if a == [] {
      assert a + b == b;
    } else {
      assert (a + b)[0] == a[0] && (a + b)[1..] == a[1..] + b;
      if m.Some? && Accepts(m.value, a[0]) { ObserveAppend(Some(Next(m.value, a[0])), a[1..], b); }
      else if b != [] { assert Observe(None, b).None?; }
    }
  }

  function Seen(s: State): Option<Monitor> { Observe(Some(NOTHING_SEEN), s.trace) }

  lemma {:induction false} ObserveTwo(m: Monitor, e: Effect, f: Effect)
    requires Accepts(m, e) && Accepts(Next(m, e), f)
    ensures Observe(Some(m), [e, f]) == Some(Next(Next(m, e), f))
  {
    assert [e, f][1..] == [f] && [f][1..] == [];
    assert Observe(Some(Next(m, e)), [f]) == Some(Next(Next(m, e), f));
  }

  lemma {:induction false} ObserveThree(m: Monitor, e: Effect, f: Effect, g: Effect)
    requires Accepts(m, e) && Accepts(Next(m, e), f) && Accepts(Next(Next(m, e), f), g)
    ensures Observe(Some(m), [e, f, g]) == Some(Next(Next(Next(m, e), f), g))
  {
    assert [e, f, g][1..] == [f, g];
    ObserveTwo(Next(m, e), f, g);
  }

  // ----- the invariant -----

  function ActiveWorker(s: State): Option<WorkerId> {
    if s.active.Some? then Some(s.active.value.worker) else None
  }

  /** Active connection, published socket and shown state agree. */
  predicate ViewsAgree(s: State) {
    && s.published == (if s.active.Some? then Some(SocketPath(s.active.value.worker)) else None)
    && match s.phase
       case Idle => if s.active.Some? then s.shown == ConnectedTo(s.active.value) else s.shown.Disconnected? || s.shown.Failed?
       case Switching(n, w, _) => s.shown.Connecting? && s.shown.node == n && s.shown.worker == w
  }

  /** The monitor accepted everything and remembers exactly what the actor knows. */
  ghost predicate Tracked(s: State, m: Monitor) {
    && Seen(s) == Some(m)
    && m.requested == s.used && m.started <= m.requested
    && m.pending == (if s.phase.Switching? then Some(s.phase.worker) else None)
    && (s.phase.Switching? ==> s.phase.worker in s.used && s.phase.worker !in m.started)
    && m.published == ActiveWorker(s)
    && (s.active.Some? ==> s.active.value.worker in m.started && s.active.value.worker !in m.stopped
                           && s.active.value.worker !in s.drains)
    && forall w :: w in s.drains ==> w in m.started && w !in m.stopped
  }

  ghost predicate Inv(s: State) { ViewsAgree(s) && exists m :: Tracked(s, m) }

  // ----- what the arms do to the connection -----

  /** Nothing that clients or the helper could notice has changed. */
  predicate SameConnection(s: State, r: State) {
    && r.active == s.active && r.published == s.published && r.shown == s.shown && r.phase == s.phase
    && r.drains == s.drains && r.used == s.used && r.trace == s.trace
  }

  /** A switch to `node` has been announced and requested; the old connection is untouched. */
  predicate Begun(s: State, r: State, w: WorkerId, manual: bool, now: Instant) {
    && r.active == s.active && r.published == s.published && r.drains == s.drains && r.used == s.used + {w}
    && r.phase.Switching? && r.phase.worker == w && r.phase.manual == manual
    && r.shown == Connecting(r.phase.node, w, now)
    && r.trace == s.trace + [Show(r.shown), StartRequested(w)]
  }

  lemma AttemptEffect(s: State, now: Instant, tests: Option<map<NodeId, TestRecord>>, nodes: seq<Node>,
                      lookup: NodeLookup, w: WorkerId)
    ensures var r := AttemptAutoConnect(s, now, tests, nodes, lookup, w);
            SameConnection(s, r) || (s.policy.enabled && Begun(s, r, w, false, now))
  {
  }

  lemma AttemptEventEffect(s: State, e: Event)
    requires Enabled(s, e) && e.Attempt?
    ensures SameConnection(s, Apply(s, e)) || (s.policy.enabled && Begun(s, Apply(s, e), e.worker, false, e.now))
  {
    var t := s.(clock := e.now);
    AttemptEffect(t, e.now, e.tests, e.nodes, e.lookup, e.worker);
    AttemptEffect(t.(policyChanged := false, failures := map[], retryDelay := AUTO_RECONNECT_INITIAL),
                  e.now, e.tests, e.nodes, e.lookup, e.worker);
  }

  lemma SwitchDoneEffect(s: State, now: Instant, ok: bool)
    requires Enabled(s, SwitchDone(now, ok))
    ensures SameConnection(if ok then SwitchSucceeded(s, now) else SwitchFailed(s, now), Apply(s, SwitchDone(now, ok)))
  {
  }

  lemma ManualEffect(s: State, e: Event)
    requires Enabled(s, e) && (e.Connect? || e.Disconnect?)
    ensures e.Connect? ==> SameConnection(s, Apply(s, e)) || Begun(s, Apply(s, e), e.worker, true, e.now)
    ensures e.Disconnect? ==> SameConnection(Dropped(s), Apply(s, e))
  {
  }

  /** Each event either leaves the connection alone, begins a switch, ends one, or drops it. */
  lemma EventEffect(s: State, e: Event)
    requires Enabled(s, e)
    ensures var r := Apply(s, e);
            match e
            case SetPolicy(_, _) => SameConnection(s, r)
            case Attempt(now, _, _, _, _, w) => SameConnection(s, r) || (s.policy.enabled && Begun(s, r, w, false, now))
            case SwitchDone(now, ok) => SameConnection(if ok then SwitchSucceeded(s, now) else SwitchFailed(s, now), r)
            case HealthCheck(now, ready) => SameConnection(if ready then s else LoseActive(s, now), r)
            case Connect(now, _, _, w) => SameConnection(s, r) || Begun(s, r, w, true, now)
            case Disconnect(_) => SameConnection(Dropped(s), r)
            case Drained(_, w) => SameConnection(Emit(s.(drains := s.drains - {w}), [StopRequested(w)]), r)
  {
    if e.Attempt? { AttemptEventEffect(s, e); }
    else if e.SwitchDone? { SwitchDoneEffect(s, e.now, e.ok); }
    else if e.Connect? || e.Disconnect? { ManualEffect(s, e); }
  }

  /** The connection after a manual disconnect. */
  function Dropped(s: State): State {
    Emit(s.(active := None, published := None, shown := Disconnected),
         [Publish(None), Show(Disconnected)] + if s.active.Some? then [StopRequested(s.active.value.worker)] else [])
  }

  lemma ViewsKept(s: State, e: Event)
    requires ViewsAgree(s) && Enabled(s, e)
    ensures ViewsAgree(Apply(s, e))
  {
    EventEffect(s, e);
  }

  // ----- the monitor accepts every step -----

  /** `Tracked` reads only the connection. */
  lemma TrackedFrame(s: State, r: State, m: Monitor)
    requires Tracked(s, m) && SameConnection(s, r)
    ensures Tracked(r, m)
  {
  }

  lemma BeginTracked(s: State, r: State, m: Monitor, w: WorkerId, manual: bool, now: Instant)
    requires Tracked(s, m) && s.phase.Idle? && w !in s.used && Begun(s, r, w, manual, now)
    ensures Tracked(r, Next(m, StartRequested(w)))
  {
    ObserveAppend(Some(NOTHING_SEEN), s.trace, [Show(r.shown), StartRequested(w)]);
    ObserveTwo(m, Show(r.shown), StartRequested(w));
  }

  lemma SuccessTracked(s: State, m: Monitor, now: Instant) returns (m': Monitor)
    requires Tracked(s, m) && s.phase.Switching?
    ensures Tracked(SwitchSucceeded(s, now), m')
  {
    var a := Active(s.phase.worker, s.phase.node, now);
    var e, f, g := Started(a.worker), Publish(Some(SocketPath(a.worker))), Show(ConnectedTo(a));
    ObserveAppend(Some(NOTHING_SEEN), s.trace, [e, f, g]);
    assert a.worker !in m.stopped by { StoppedWereStarted(s, m); }
    ObserveThree(m, e, f, g);
    m' := Next(Next(Next(m, e), f), g);
  }

  lemma FailureTracked(s: State, m: Monitor, now: Instant) returns (m': Monitor)
    requires Tracked(s, m) && s.phase.Switching?
    ensures Tracked(SwitchFailed(s, now), m')
  {
    var e, f := StartFailed(s.phase.worker), Show(SwitchFailed(s, now).shown);
    ObserveAppend(Some(NOTHING_SEEN), s.trace, [e, f]);
    ObserveTwo(m, e, f);
    m' := Next(Next(m, e), f);
  }

  lemma LossTracked(s: State, m: Monitor, now: Instant) returns (m': Monitor)
    requires Tracked(s, m) && s.phase.Idle? && s.active.Some?
    ensures Tracked(LoseActive(s, now), m')
  {
    var a := s.active.value;
    var e, f, g := Publish(None), Show(Failed(a.node, now)), StopRequested(a.worker);
    ObserveAppend(Some(NOTHING_SEEN), s.trace, [e, f, g]);
    ObserveThree(m, e, f, g);
    m' := Next(Next(Next(m, e), f), g);
  }

  lemma DropTracked(s: State, m: Monitor) returns (m': Monitor)
    requires Tracked(s, m) && s.phase.Idle?
    ensures Tracked(Dropped(s), m')
  {
    var e, f := Publish(None), Show(Disconnected);
    if s.active.Some? {
      var g := StopRequested(s.active.value.worker);
      assert [e, f] + [g] == [e, f, g];
      ObserveAppend(Some(NOTHING_SEEN), s.trace, [e, f, g]);
      ObserveThree(m, e, f, g);
      m' := Next(Next(Next(m, e), f), g);
    } else {
      assert [e, f] + [] == [e, f];
      ObserveAppend(Some(NOTHING_SEEN), s.trace, [e, f]);
      ObserveTwo(m, e, f);
      m' := Next(Next(m, e), f);
    }
  }

  lemma DrainTracked(s: State, m: Monitor, w: WorkerId)
    requires Tracked(s, m) && w in s.drains
    ensures Tracked(Emit(s.(drains := s.drains - {w}), [StopRequested(w)]), Next(m, StopRequested(w)))
  {
    ObserveAppend(Some(NOTHING_SEEN), s.trace, [StopRequested(w)]);
    assert Observe(Some(m), [StopRequested(w)]) == Some(Next(m, StopRequested(w)));
  }

  /** The monitor never lets a worker stop that did not start. */
  lemma {:induction false} StoppedWereStartedAfter(m: Monitor, trace: seq<Effect>)
    requires Observe(Some(m), trace).Some? && m.stopped <= m.started
    ensures Observe(Some(m), trace).value.stopped <= Observe(Some(m), trace).value.started
    decreases |trace|
  {
    if trace != [] { StoppedWereStartedAfter(Next(m, trace[0]), trace[1..]); }
  }

  lemma StoppedWereStarted(s: State, m: Monitor)
    requires Tracked(s, m)
    ensures m.stopped <= m.started
  {
    StoppedWereStartedAfter(NOTHING_SEEN, s.trace);
  }

  lemma TrackedKept(s: State, e: Event, m: Monitor) returns (m': Monitor)
    requires Tracked(s, m) && Enabled(s, e)
    ensures Tracked(Apply(s, e), m')
  {
    var r := Apply(s, e);
    EventEffect(s, e);
    match e {
      case SetPolicy(_, _) =>
        m' := m;
        TrackedFrame(s, r, m);
      case Attempt(now, _, _, _, _, w) =>
        m' := if SameConnection(s, r) then m else Next(m, StartRequested(w));
        if SameConnection(s, r) { TrackedFrame(s, r, m); } else { BeginTracked(s, r, m, w, false, now); }
      case Connect(now, _, _, w) =>
        m' := if SameConnection(s, r) then m else Next(m, StartRequested(w));
        if SameConnection(s, r) { TrackedFrame(s, r, m); } else { BeginTracked(s, r, m, w, true, now); }
      case SwitchDone(now, ok) =>
        if ok { m' := SuccessTracked(s, m, now); TrackedFrame(SwitchSucceeded(s, now), r, m'); }
        else { m' := FailureTracked(s, m, now); TrackedFrame(SwitchFailed(s, now), r, m'); }
      case HealthCheck(now, ready) =>
        if ready { m' := m; TrackedFrame(s, r, m); }
        else { m' := LossTracked(s, m, now); TrackedFrame(LoseActive(s, now), r, m'); }
      case Disconnect(_) =>
        m' := DropTracked(s, m);
        TrackedFrame(Dropped(s), r, m');
      case Drained(_, w) =>
        m' := Next(m, StopRequested(w));
        DrainTracked(s, m, w);
        TrackedFrame(Emit(s.(drains := s.drains - {w}), [StopRequested(w)]), r, m');
    }
  }

  // ----- every run -----

  lemma InitInv(policy: AutoConnectConfig)
    ensures Inv(Init(policy))
  {
    assert Tracked(Init(policy), NOTHING_SEEN);
  }

  lemma InvKept(s: State, e: Event)
    requires Inv(s) && Enabled(s, e)
    ensures Inv(Apply(s, e))
  {
    var m :| Tracked(s, m);
    var m' := TrackedKept(s, e, m);
    ViewsKept(s, e);
  }

  lemma {:induction false} InvAlongRun(s: State, es: seq<Event>)
    requires Inv(s) && IsRun(s, es)
    ensures Inv(Final(s, es))
    decreases |es|
  {
    if es != [] {
      InvKept(s, es[0]);
      InvAlongRun(Apply(s, es[0]), es[1..]);
    }
  }

  /** In every run and at every moment: a socket is published iff a connection is active, and it
      is that worker's; between events the shown state is `Connected` iff it describes exactly the
      active connection, and otherwise `Disconnected` or `Failed`. */
  lemma {:induction false} ViewsAgreeInEveryRun(policy: AutoConnectConfig, es: seq<Event>)
    requires IsRun(Init(policy), es)
    ensures var s := Final(Init(policy), es);
            && (s.published.Some? <==> s.active.Some?)
            && (s.active.Some? ==> s.published == Some(SocketPath(s.active.value.worker)))
            && (s.phase.Idle? ==> forall n, w, t :: s.shown == Connected(n, w, t) <==> s.active == Some(Active(w, n, t)))
            && (s.phase.Idle? && s.active.None? ==> s.shown.Disconnected? || s.shown.Failed?)
  {
    InitInv(policy);
    InvAlongRun(Init(policy), es);
  }

  /** In every run the monitor accepts the whole trace, hence every prefix of it. */
  lemma {:induction false} MonitorAcceptsEveryRun(policy: AutoConnectConfig, es: seq<Event>, k: nat)
    requires IsRun(Init(policy), es) && k <= |Final(Init(policy), es).trace|
    ensures Observe(Some(NOTHING_SEEN), Final(Init(policy), es).trace[..k]).Some?
  {
    InitInv(policy);
    InvAlongRun(Init(policy), es);
    var trace := Final(Init(policy), es).trace;
    assert trace == trace[..k] + trace[k..];
    ObserveAppend(Some(NOTHING_SEEN), trace[..k], trace[k..]);
    if Observe(Some(NOTHING_SEEN), trace[..k]).None? { ObserveNothing(trace[k..]); }
  }

  lemma {:induction false} ObserveNothing(trace: seq<Effect>)
    ensures Observe(None, trace).None?
  {
  }

  // ----- what acceptance means -----

  /** After an accepted trace the route, if any, leads to a worker whose start succeeded and whose
      stop nobody has requested. */
  lemma {:induction false} AcceptedRouteIsLive(trace: seq<Effect>, m: Monitor)
    requires Observe(Some(NOTHING_SEEN), trace) == Some(m)
    ensures forall w :: w in m.started <==> Started(w) in trace
    ensures forall w :: w in m.stopped <==> StopRequested(w) in trace
    ensures m.published.Some? ==> Started(m.published.value) in trace && StopRequested(m.published.value) !in trace
    decreases |trace|
  {
    if trace != [] {
      var front, last := trace[..|trace| - 1], trace[|trace| - 1];
      assert trace == front + [last];
      ObserveAppend(Some(NOTHING_SEEN), front, [last]);
      var before := Observe(Some(NOTHING_SEEN), front);
      if before.None? { ObserveNothing([last]); }
      AcceptedRouteIsLive(front, before.value);
      assert Observe(before, [last]) == Some(Next(before.value, last));
    }
  }

  /** In an accepted trace no worker is stopped twice. */
  lemma {:induction false} AcceptedStopsOnce(trace: seq<Effect>, i: nat, j: nat, w: WorkerId)
    requires Observe(Some(NOTHING_SEEN), trace).Some?
    requires i < |trace| && j < |trace| && trace[i] == StopRequested(w) && trace[j] == StopRequested(w)
    ensures i == j
  {
    if i < j { SecondStopRejected(trace, i, j, w); }
    if j < i { SecondStopRejected(trace, j, i, w); }
  }

  lemma {:induction false} SecondStopRejected(trace: seq<Effect>, i: nat, j: nat, w: WorkerId)
    requires i < j < |trace| && trace[i] == StopRequested(w) && trace[j] == StopRequested(w)
    ensures Observe(Some(NOTHING_SEEN), trace).None?
  {
    var front, rest := trace[..j], trace[j..];
    assert trace == front + rest;
    ObserveAppend(Some(NOTHING_SEEN), front, rest);
    var m := Observe(Some(NOTHING_SEEN), front);
    if m.None? {
      ObserveNothing(rest);
    } else {
      AcceptedRouteIsLive(front, m.value);
      assert front[i] == StopRequested(w);
    }
  }

  lemma {:induction false} PrefixIsAccepted(trace: seq<Effect>, k: nat)
    requires Observe(Some(NOTHING_SEEN), trace).Some? && k < |trace|
    ensures var m := Observe(Some(NOTHING_SEEN), trace[..k]);
            m.Some? && Accepts(m.value, trace[k])
            && Observe(Some(NOTHING_SEEN), trace[..k + 1]) == Some(Next(m.value, trace[k]))
  {
    var m := Observe(Some(NOTHING_SEEN), trace[..k]);
    assert trace == trace[..k] + trace[k..] && trace[k..][0] == trace[k];
    ObserveAppend(Some(NOTHING_SEEN), trace[..k], trace[k..]);
    ObserveNothing(trace[k..]);
    assert trace[..k + 1] == trace[..k] + [trace[k]];
    ObserveAppend(Some(NOTHING_SEEN), trace[..k], [trace[k]]);
    assert [trace[k]][1..] == [];
  }

  /** From its request until its outcome a worker is the one being started. */
  lemma {:induction false} StartStaysPending(trace: seq<Effect>, i: nat, k: nat, w: WorkerId)
    requires Observe(Some(NOTHING_SEEN), trace).Some? && i < k <= |trace| && trace[i] == StartRequested(w)
    requires forall j :: i < j < k ==> trace[j] != Started(w) && trace[j] != StartFailed(w)
    ensures Observe(Some(NOTHING_SEEN), trace[..k]).Some?
    ensures Observe(Some(NOTHING_SEEN), trace[..k]).value.pending == Some(w)
    decreases k
  {
    PrefixIsAccepted(trace, k - 1);
    if i + 1 < k { StartStaysPending(trace, i, k - 1, w); }
  }

  /** While a replacement starts, the route of the clients does not change. */
  lemma {:induction false} RouteWaitsForOutcome(trace: seq<Effect>, i: nat, k: nat, w: WorkerId)
    requires Observe(Some(NOTHING_SEEN), trace).Some? && i < k < |trace| && trace[i] == StartRequested(w)
    requires forall j :: i < j < k ==> trace[j] != Started(w) && trace[j] != StartFailed(w)
    ensures !trace[k].Publish? && !trace[k].StartRequested?
  {
    StartStaysPending(trace, i, k, w);
    PrefixIsAccepted(trace, k);
  }
}
