/** The connection actor: make-before-break switching with health checks, node cooldown, bounded
    back-off and manual override.  One event is one arm of the actor's `select!`, except that a
    switch is two events, because drain tasks and API calls run while the new worker starts. */
module ActorProtocol {
  import opened Wrappers
  import opened Nodes

  type WorkerId = nat
  /** Milliseconds since the actor started. */
  type Instant = nat

  const AUTO_RECONNECT_INITIAL := 1_000
  const AUTO_RECONNECT_MAX := 30_000
  const AUTO_NODE_COOLDOWN := 60_000
  const OLD_WORKER_DRAIN := 30_000

  /** The SOCKS socket of a worker lies in a directory named after its id. */
  datatype Path = SocketPath(worker: WorkerId)

  datatype Active = Active(worker: WorkerId, node: NodeId, since: Instant)

  datatype ConnectionState =
    | Disconnected
    | Connecting(node: NodeId, worker: WorkerId, since: Instant)
    | Connected(node: NodeId, worker: WorkerId, since: Instant)
    | Failed(node: NodeId, at: Instant)

  /** Everything the actor does that others can see, in order. */
  datatype Effect =
    | StartRequested(worker: WorkerId)
    | Started(worker: WorkerId)
    | StartFailed(worker: WorkerId)
    | Publish(socket: Option<Path>)
    | Show(state: ConnectionState)
    | StopRequested(worker: WorkerId)

  datatype Phase = Idle | Switching(node: NodeId, worker: WorkerId, manual: bool)

  datatype State = State(
    active: Option<Active>,
    published: Option<Path>,
    shown: ConnectionState,
    failures: map<NodeId, Instant>,
    retryAt: Option<Instant>,
    retryDelay: nat,
    phase: Phase,
    policy: AutoConnectConfig,
    policyChanged: bool,
    drains: map<WorkerId, Instant>,
    clock: Instant,
    used: set<WorkerId>,
    trace: seq<Effect>)

  function Init(policy: AutoConnectConfig): State {
    State(None, None, Disconnected, map[], None, AUTO_RECONNECT_INITIAL, Idle, policy, false, map[], 0, {}, [])
  }

  /** What `node()` and the availability check find when a switch begins. */
  datatype NodeLookup = NodeReady | NodeMissing | NodeUnavailable

  /** What wakes an automatic attempt. */
  datatype Wake = RetryTimer | PolicyUpdate | Trigger

  datatype Event =
    | SetPolicy(now: Instant, policy: AutoConnectConfig)
    | Attempt(now: Instant, wake: Wake, tests: Option<map<NodeId, TestRecord>>, nodes: seq<Node>,
              lookup: NodeLookup, worker: WorkerId)
    | SwitchDone(now: Instant, ok: bool)
    | HealthCheck(now: Instant, ready: bool)
    | Connect(now: Instant, node: NodeId, lookup: NodeLookup, worker: WorkerId)
    | Disconnect(now: Instant)
    | Drained(now: Instant, worker: WorkerId)

  predicate Enabled(s: State, e: Event) {
    && s.clock <= e.now
    && match e
       case SetPolicy(_, _) => true
       case Attempt(now, wake, _, _, _, w) =>
         && s.phase.Idle? && w !in s.used
         && (wake == RetryTimer ==> s.retryAt.Some? && s.retryAt.value <= now)
         && (wake == PolicyUpdate ==> s.policyChanged)
       case SwitchDone(_, _) => s.phase.Switching?
       case HealthCheck(_, _) => s.phase.Idle? && s.active.Some?
       case Connect(_, _, _, w) => s.phase.Idle? && w !in s.used
       case Disconnect(_) => s.phase.Idle?
       case Drained(now, w) => w in s.drains && s.drains[w] <= now
  }

  // ----- helpers of the arms -----

  function Doubled(delay: nat): nat {
    if 2 * delay < AUTO_RECONNECT_MAX then 2 * delay else AUTO_RECONNECT_MAX
  }

  /** `failures.values().copied().min()` */
  ghost function Earliest(failures: map<NodeId, Instant>): (r: Option<Instant>)
    ensures r.None? <==> failures == map[]
    ensures r.Some? ==> (exists n :: n in failures && failures[n] == r.value)
                        && forall n :: n in failures ==> r.value <= failures[n]
    decreases |failures|
  {
    if failures == map[] then None
    else
      var n :| n in failures;
      var rest := Earliest(failures - {n});
      assert forall k :: k in failures ==> k == n || k in failures - {n};
      if rest.Some? && rest.value < failures[n] then rest else Some(failures[n])
  }

  /** `failures.retain(|_, retry_at| *retry_at > now)` */
  function StillCooling(failures: map<NodeId, Instant>, now: Instant): map<NodeId, Instant> {
    map n | n in failures && failures[n] > now :: failures[n]
  }

  function Emit(s: State, effects: seq<Effect>): State { s.(trace := s.trace + effects) }

  function ConnectedTo(a: Active): ConnectionState { Connected(a.node, a.worker, a.since) }

  /** A failed automatic attempt: the node cools down and the retry delay doubles. */
  function FailAttempt(s: State, node: NodeId, now: Instant): State {
    s.(failures := s.failures[node := now + AUTO_NODE_COOLDOWN],
       retryAt := Some(now + s.retryDelay), retryDelay := Doubled(s.retryDelay))
  }

  /** First half of `switch_connection`: announce and request the new worker. */
  function BeginSwitch(s: State, node: NodeId, w: WorkerId, manual: bool, now: Instant): State {
    Emit(s.(phase := Switching(node, w, manual), shown := Connecting(node, w, now), used := s.used + {w}),
         [Show(Connecting(node, w, now)), StartRequested(w)])
  }

  /** A manual command forgets everything about automatic retries. */
  function ResetRetries(s: State): State {
    s.(retryAt := None, failures := map[], retryDelay := AUTO_RECONNECT_INITIAL)
  }

  ghost function AttemptAutoConnect(s: State, now: Instant, tests: Option<map<NodeId, TestRecord>>, nodes: seq<Node>,
                                    lookup: NodeLookup, w: WorkerId): State
  {
    if !s.policy.enabled then ResetRetries(s)
    else
      var s := s.(failures := StillCooling(s.failures, now));
      if tests.None? then s.(retryAt := Some(now + s.retryDelay), retryDelay := Doubled(s.retryDelay))
      else
        var choice := SelectNode(nodes, tests.value, s.policy, s.failures.Keys);
        if choice.None? then
          s.(retryAt := if SelectNode(nodes, tests.value, s.policy, {}).Some? then Earliest(s.failures) else None)
        else if s.active.Some? && s.active.value.node == choice.value then
          s.(retryDelay := AUTO_RECONNECT_INITIAL, retryAt := Earliest(s.failures))
        else if lookup != NodeReady then FailAttempt(s, choice.value, now)
        else BeginSwitch(s, choice.value, w, false, now)
  }

  /** Second half of `switch_connection` when the helper reports success. */
  function SwitchSucceeded(s: State, now: Instant): State
    requires s.phase.Switching?
  {
    var a := Active(s.phase.worker, s.phase.node, now);
    Emit(s.(phase := Idle, active := Some(a), published := Some(SocketPath(a.worker)), shown := ConnectedTo(a),
            drains := if s.active.Some? then s.drains[s.active.value.worker := now + OLD_WORKER_DRAIN] else s.drains),
         [Started(a.worker), Publish(Some(SocketPath(a.worker))), Show(ConnectedTo(a))])
  }

  /** ... and when it reports a failure: the old connection, if any, is still the one shown. */
  function SwitchFailed(s: State, now: Instant): State
    requires s.phase.Switching?
  {
    var fallback := if s.active.Some? then ConnectedTo(s.active.value) else Failed(s.phase.node, now);
    Emit(s.(phase := Idle, shown := fallback), [StartFailed(s.phase.worker), Show(fallback)])
  }

  /** The tunnel of the active worker is gone. */
  function LoseActive(s: State, now: Instant): State
    requires s.active.Some?
  {
    var a := s.active.value;
    var lost := Emit(s.(active := None, published := None, shown := Failed(a.node, now),
                        failures := s.failures[a.node := now + AUTO_NODE_COOLDOWN]),
                     [Publish(None), Show(Failed(a.node, now)), StopRequested(a.worker)]);
    if s.policy.enabled then lost.(retryAt := Some(now + s.retryDelay), retryDelay := Doubled(s.retryDelay))
    else lost
  }

  ghost function Apply(s: State, e: Event): State
    requires Enabled(s, e)
  {
    var s := s.(clock := e.now);
    match e
    case SetPolicy(_, policy) => s.(policy := policy, policyChanged := true)
    case Attempt(now, wake, tests, nodes, lookup, w) =>
      if wake == PolicyUpdate then
        AttemptAutoConnect(s.(policyChanged := false, failures := map[], retryDelay := AUTO_RECONNECT_INITIAL),
                           now, tests, nodes, lookup, w)
      else AttemptAutoConnect(s, now, tests, nodes, lookup, w)
    case SwitchDone(now, ok) =>
      var done := if ok then SwitchSucceeded(s, now) else SwitchFailed(s, now);
      if s.phase.manual then ResetRetries(done)
      else if ok then done.(retryDelay := AUTO_RECONNECT_INITIAL, retryAt := Earliest(s.failures))
      else FailAttempt(done, s.phase.node, now)
    case HealthCheck(now, ready) => if ready then s else LoseActive(s, now)
    case Connect(now, node, lookup, w) =>
      if (s.active.Some? && s.active.value.node == node) || lookup != NodeReady then ResetRetries(s)
      else BeginSwitch(s, node, w, true, now)
    case Disconnect(_) =>
      var stop := if s.active.Some? then [StopRequested(s.active.value.worker)] else [];
      Emit(ResetRetries(s).(active := None, published := None, shown := Disconnected),
           [Publish(None), Show(Disconnected)] + stop)
    case Drained(_, w) => Emit(s.(drains := s.drains - {w}), [StopRequested(w)])
  }

  ghost predicate IsRun(s: State, es: seq<Event>)
    decreases |es|
  {
    es == [] || (Enabled(s, es[0]) && IsRun(Apply(s, es[0]), es[1..]))
  }

  ghost function Final(s: State, es: seq<Event>): State
    requires IsRun(s, es)
    decreases |es|
  {
    if es == [] then s else Final(Apply(s, es[0]), es[1..])
  }
}
