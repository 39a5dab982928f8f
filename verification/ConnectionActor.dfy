/** The actor object: its fields are the locals of the actor task plus the watch values it
    publishes, and each method is one arm of its loop. */
module ConnectionActors {
  import opened Wrappers
  import opened Nodes
  import opened ActorProtocol
  import opened ActorSafety

  /** `failures.values().copied().min()` by scanning the table. */
  method EarliestOf(failures: map<NodeId, Instant>) returns (r: Option<Instant>)
    ensures r == Earliest(failures)
  {
    var rest := failures.Keys;
    r := None;
    ghost var who := 0;
    while rest != {}
      invariant rest <= failures.Keys
      invariant r.None? ==> rest == failures.Keys
      invariant r.Some? ==> who in failures && failures[who] == r.value
      invariant r.Some? ==> forall n :: n in failures && n !in rest ==> r.value <= failures[n]
      decreases |rest|
    {
      var n :| n in rest;
      if r.None? || failures[n] < r.value { r, who := Some(failures[n]), n; }
      rest := rest - {n};
    }
  }

  class ConnectionActor {
    var active: Option<Active>
    var published: Option<Path>
    var shown: ConnectionState
    var failures: map<NodeId, Instant>
    var retryAt: Option<Instant>
    var retryDelay: nat
    var phase: Phase
    var policy: AutoConnectConfig
    var policyChanged: bool
    var drains: map<WorkerId, Instant>
    ghost var clock: Instant
    ghost var used: set<WorkerId>
    ghost var trace: seq<Effect>

    ghost function View(): State
      reads this
    {
      State(active, published, shown, failures, retryAt, retryDelay, phase, policy, policyChanged, drains, clock, used, trace)
    }

    /** A monitor has accepted everything done so far, and the three views of the connection agree. */
    ghost predicate Valid()
      reads this
    {
      Inv(View())
    }

    constructor (policy: AutoConnectConfig)
      ensures Valid() && View() == Init(policy)
    {
      active, published, shown := None, None, Disconnected;
      failures, retryAt, retryDelay := map[], None, AUTO_RECONNECT_INITIAL;
      phase, this.policy, policyChanged, drains := Idle, policy, false, map[];
      clock, used, trace := 0, {}, [];
      new;
      InitInv(policy);
    }

    method SetPolicy(ghost now: Instant, config: AutoConnectConfig)
      requires Valid() && Enabled(View(), Event.SetPolicy(now, config))
      modifies this
      ensures Valid() && ViewsAgree(View()) && View() == Apply(old(View()), Event.SetPolicy(now, config))
    {
      InvKept(View(), Event.SetPolicy(now, config));
      clock := now;
      policy, policyChanged := config, true;
    }

    /** Doubles the retry delay up to its cap and returns when to retry. */
    method ScheduleRetry(now: Instant)
      modifies this`retryAt, this`retryDelay
      ensures retryAt == Some(now + old(retryDelay)) && retryDelay == Doubled(old(retryDelay))
    {
      retryAt := Some(now + retryDelay);
      retryDelay := if 2 * retryDelay < AUTO_RECONNECT_MAX then 2 * retryDelay else AUTO_RECONNECT_MAX;
    }

    method ForgetRetries()
      modifies this`retryAt, this`failures, this`retryDelay
      ensures View() == ResetRetries(old(View()))
    {
      retryAt, failures, retryDelay := None, map[], AUTO_RECONNECT_INITIAL;
    }

    method RequestWorker(node: NodeId, w: WorkerId, manual: bool, now: Instant)
      modifies this`phase, this`shown, this`used, this`trace
      ensures View() == BeginSwitch(old(View()), node, w, manual, now)
    {
      phase := Switching(node, w, manual);
      shown := Connecting(node, w, now);
      used := used + {w};
      trace := trace + [Show(shown), StartRequested(w)];
    }

    /** Follows the policy's choice: keep it, fail it at once, or request its worker. */
    method Follow(now: Instant, choice: NodeId, lookup: NodeLookup, w: WorkerId)
      modifies this`retryAt, this`retryDelay, this`failures, this`phase, this`shown, this`used, this`trace
      ensures View() == (if old(active).Some? && old(active).value.node == choice
                         then old(View()).(retryDelay := AUTO_RECONNECT_INITIAL, retryAt := Earliest(old(failures)))
                         else if lookup != NodeReady then FailAttempt(old(View()), choice, now)
                         else BeginSwitch(old(View()), choice, w, false, now))
    {
      if active.Some? && active.value.node == choice {
        retryDelay := AUTO_RECONNECT_INITIAL;
        retryAt := EarliestOf(failures);
      } else if lookup != NodeReady {
        failures := failures[choice := now + AUTO_NODE_COOLDOWN];
        ScheduleRetry(now);
      } else {
        RequestWorker(choice, w, false, now);
      }
    }

    method AttemptNow(now: Instant, tests: Option<map<NodeId, TestRecord>>, nodes: seq<Node>, lookup: NodeLookup, w: WorkerId)
      modifies this
      ensures View() == AttemptAutoConnect(old(View()), now, tests, nodes, lookup, w)
    {
      if !policy.enabled {
        ForgetRetries();
        return;
      }
      failures := map n | n in failures && failures[n] > now :: failures[n];
      if tests.None? {
        ScheduleRetry(now);
        return;
      }
      var choice := SelectNode(nodes, tests.value, policy, failures.Keys);
      if choice.None? {
        var anyway := SelectNode(nodes, tests.value, policy, {});
        var earliest := EarliestOf(failures);
        retryAt := if anyway.Some? then earliest else None;
      } else {
        Follow(now, choice.value, lookup, w);
      }
    }

    /** The three arms that end in an automatic attempt. */
    method OnWake(now: Instant, wake: Wake, tests: Option<map<NodeId, TestRecord>>, nodes: seq<Node>,
                  lookup: NodeLookup, w: WorkerId)
      requires Valid() && Enabled(View(), Attempt(now, wake, tests, nodes, lookup, w))
      modifies this
      ensures Valid() && ViewsAgree(View()) && View() == Apply(old(View()), Attempt(now, wake, tests, nodes, lookup, w))
      ensures active == old(active) && published == old(published)
    {
      InvKept(View(), Attempt(now, wake, tests, nodes, lookup, w));
      AttemptEventEffect(View(), Attempt(now, wake, tests, nodes, lookup, w));
      clock := now;
      if wake == PolicyUpdate {
        policyChanged, failures, retryDelay := false, map[], AUTO_RECONNECT_INITIAL;
      }
      AttemptNow(now, tests, nodes, lookup, w);
    }

    /** The new worker is ready: publish it, show it, and let the old one drain. */
    method TakeOver(now: Instant)
      requires phase.Switching?
      modifies this
      ensures View() == SwitchSucceeded(old(View()), now)
    {
      var node, w := phase.node, phase.worker;
      trace := trace + [Started(w), Publish(Some(SocketPath(w))), Show(Connected(node, w, now))];
      published := Some(SocketPath(w));
      shown := Connected(node, w, now);
      if active.Some? { drains := drains[active.value.worker := now + OLD_WORKER_DRAIN]; }
      active := Some(Active(w, node, now));
      phase := Idle;
    }

    /** The new worker did not come up: show what is still true. */
    method FallBack(now: Instant)
      requires phase.Switching?
      modifies this`phase, this`shown, this`trace
      ensures View() == SwitchFailed(old(View()), now)
    {
      shown := if active.Some? then Connected(active.value.node, active.value.worker, active.value.since) else Failed(phase.node, now);
      trace := trace + [StartFailed(phase.worker), Show(shown)];
      phase := Idle;
    }

    /** What the outcome of a switch means for later attempts. */
    method SettleRetries(now: Instant, node: NodeId, manual: bool, ok: bool)
      modifies this`retryAt, this`failures, this`retryDelay
      ensures View() == (if manual then ResetRetries(old(View()))
                         else if ok then old(View()).(retryDelay := AUTO_RECONNECT_INITIAL, retryAt := Earliest(failures))
                         else FailAttempt(old(View()), node, now))
    {
      if manual {
        ForgetRetries();
      } else if ok {
        retryDelay := AUTO_RECONNECT_INITIAL;
        retryAt := EarliestOf(failures);
      } else {
        failures := failures[node := now + AUTO_NODE_COOLDOWN];
        ScheduleRetry(now);
      }
    }

    /** The helper answered the start request of a switch. */
    method OnSwitchDone(now: Instant, ok: bool)
      requires Valid() && Enabled(View(), SwitchDone(now, ok))
      modifies this
      ensures Valid() && ViewsAgree(View()) && View() == Apply(old(View()), SwitchDone(now, ok))
      ensures active == if ok then Some(Active(old(phase).worker, old(phase).node, now)) else old(active)
      ensures ok && old(active).Some? ==> old(active).value.worker in drains
    {
      InvKept(View(), SwitchDone(now, ok));
      clock := now;
      var node, manual := phase.node, phase.manual;
      if ok { TakeOver(now); } else { FallBack(now); }
      SettleRetries(now, node, manual, ok);
    }

    /** The tunnel is gone: close the route first, then report, then stop the worker. */
    method Lose(now: Instant)
      requires active.Some?
      modifies this
      ensures View() == LoseActive(old(View()), now)
    {
      var lost := active.value;
      active, published, shown := None, None, Failed(lost.node, now);
      failures := failures[lost.node := now + AUTO_NODE_COOLDOWN];
      trace := trace + [Publish(None), Show(Failed(lost.node, now)), StopRequested(lost.worker)];
      if policy.enabled { ScheduleRetry(now); }
    }

    method OnHealthCheck(now: Instant, ready: bool)
      requires Valid() && Enabled(View(), HealthCheck(now, ready))
      modifies this
      ensures Valid() && ViewsAgree(View()) && View() == Apply(old(View()), HealthCheck(now, ready))
      ensures if ready then active == old(active) else active.None? && published.None? && shown.Failed?
    {
      InvKept(View(), HealthCheck(now, ready));
      clock := now;
      if !ready { Lose(now); }
    }

    method OnConnect(now: Instant, node: NodeId, lookup: NodeLookup, w: WorkerId)
      requires Valid() && Enabled(View(), Connect(now, node, lookup, w))
      modifies this
      ensures Valid() && ViewsAgree(View()) && View() == Apply(old(View()), Connect(now, node, lookup, w))
      ensures active == old(active) && published == old(published)
    {
      InvKept(View(), Connect(now, node, lookup, w));
      clock := now;
      if (active.Some? && active.value.node == node) || lookup != NodeReady {
        ForgetRetries();
      } else {
        RequestWorker(node, w, true, now);
      }
    }

    /** Close the route, show it, and stop the worker if there is one. */
    method DropConnection()
      modifies this`active, this`published, this`shown, this`trace
      ensures View() == Dropped(old(View()))
    {
      ghost var stop := if active.Some? then [StopRequested(active.value.worker)] else [];
      trace := trace + ([Publish(None), Show(Disconnected)] + stop);
      active, published, shown := None, None, Disconnected;
    }

    method OnDisconnect(ghost now: Instant)
      requires Valid() && Enabled(View(), Disconnect(now))
      modifies this
      ensures Valid() && ViewsAgree(View()) && View() == Apply(old(View()), Disconnect(now))
      ensures active.None? && published.None? && shown == Disconnected
    {
      InvKept(View(), Disconnect(now));
      clock := now;
      ForgetRetries();
      DropConnection();
    }

    /** A drain task wakes up and stops the worker it was spawned for. */
    method OnDrained(ghost now: Instant, w: WorkerId)
      requires Valid() && Enabled(View(), Drained(now, w))
      modifies this
      ensures Valid() && ViewsAgree(View()) && View() == Apply(old(View()), Drained(now, w))
      ensures active == old(active) && published != Some(SocketPath(w)) && w !in drains
    {
      InvKept(View(), Drained(now, w));
      clock := now;
      drains := drains - {w};
      trace := trace + [StopRequested(w)];
    }

    /** One turn of the loop. */
    method Handle(e: Event)
      requires Valid() && Enabled(View(), e)
      modifies this
      ensures Valid() && View() == Apply(old(View()), e)
    {
      match e
      case SetPolicy(now, config) => SetPolicy(now, config);
      case Attempt(now, wake, tests, nodes, lookup, w) => OnWake(now, wake, tests, nodes, lookup, w);
      case SwitchDone(now, ok) => OnSwitchDone(now, ok);
      case HealthCheck(now, ready) => OnHealthCheck(now, ready);
      case Connect(now, node, lookup, w) => OnConnect(now, node, lookup, w);
      case Disconnect(now) => OnDisconnect(now);
      case Drained(now, w) => OnDrained(now, w);
    }

    /** The loop itself: whatever events arrive, the monitor accepts everything the actor has done,
        and in the end active connection, published socket and shown state agree. */
    method Run(es: seq<Event>)
      requires Valid() && IsRun(View(), es)
      modifies this
      ensures Valid() && View() == Final(old(View()), es)
      ensures Observe(Some(NOTHING_SEEN), trace).Some? && ViewsAgree(View())
    {
      var k := 0;
      while k < |es|
        invariant k <= |es| && Valid()
        invariant IsRun(View(), es[k..]) && Final(View(), es[k..]) == Final(old(View()), es)
      {
        Handle(es[k]);
        k := k + 1;
      }
    }
  }
}
