/** The automatic policy over whole runs: cooldown of failed nodes, progress of every attempt,
    the back-off sequence, and respect for a disabled policy. */
module ActorPolicy {
  import opened Wrappers
  import opened Sorting
  import opened Nodes
  import opened ActorProtocol
  import opened ActorSafety
  import opened Bits

  /** Neither a policy change nor a manual command. */
  predicate Automatic(e: Event) {
    match e
    case Attempt(_, wake, _, _, _, _) => wake != PolicyUpdate
    case SwitchDone(_, _) => true
    case HealthCheck(_, _) => true
    case Drained(_, _) => true
    case _ => false
  }

  /** No entry lies further ahead than one cooldown. */
  ghost predicate Bounded(s: State) {
    forall n :: n in s.failures ==> s.failures[n] <= s.clock + AUTO_NODE_COOLDOWN
  }

  /** The automatic policy is on and no manual switch is under way. */
  predicate Unattended(s: State) { s.policy.enabled && (s.phase.Switching? ==> !s.phase.manual) }

  predicate CoolingUntil(s: State, n: NodeId, until: Instant) { n in s.failures && until <= s.failures[n] }

  // ----- cooldown -----

  lemma AttemptKeepsCooldown(s: State, now: Instant, tests: Option<map<NodeId, TestRecord>>, nodes: seq<Node>,
                             lookup: NodeLookup, w: WorkerId, n: NodeId, until: Instant)
    requires s.policy.enabled && s.phase.Idle? && CoolingUntil(s, n, until) && now < until <= now + AUTO_NODE_COOLDOWN
    ensures var r := AttemptAutoConnect(s, now, tests, nodes, lookup, w);
            CoolingUntil(r, n, until) && (r.phase.Switching? ==> r.phase.node != n)
  {
    var failures := StillCooling(s.failures, now);
    assert n in failures;
    if tests.Some? { SelectNodeIsBest(nodes, tests.value, s.policy, failures.Keys); }
  }

  /** One automatic event before the cooldown ends neither forgets the node nor picks it. */
  lemma CooldownStep(s: State, e: Event, n: NodeId, until: Instant)
    requires Enabled(s, e) && Automatic(e) && Unattended(s) && CoolingUntil(s, n, until)
    requires e.now < until <= s.clock + AUTO_NODE_COOLDOWN
    ensures var r := Apply(s, e);
            CoolingUntil(r, n, until) && Unattended(r) && (s.phase.Idle? && r.phase.Switching? ==> r.phase.node != n)
  {
    if e.Attempt? {
      AttemptKeepsCooldown(s.(clock := e.now), e.now, e.tests, e.nodes, e.lookup, e.worker, n, until);
    }
  }

  /** The switches that a run begins. */
  ghost function SwitchTargets(s: State, es: seq<Event>): set<NodeId>
    requires IsRun(s, es)
    decreases |es|
  {
    if es == [] then {}
    else
      var r := Apply(s, es[0]);
      SwitchTargets(r, es[1..]) + if s.phase.Idle? && r.phase.Switching? then {r.phase.node} else {}
  }

  /** Without policy changes and manual commands, a node that failed is not chosen again before
      its cooldown is over. */
  lemma {:induction false} FailedNodeIsNotChosen(s: State, es: seq<Event>, n: NodeId, until: Instant)
    requires IsRun(s, es) && Unattended(s) && CoolingUntil(s, n, until) && until <= s.clock + AUTO_NODE_COOLDOWN
    requires forall i :: 0 <= i < |es| ==> Automatic(es[i]) && es[i].now < until
    ensures n !in SwitchTargets(s, es)
    decreases |es|
  {
    if es != [] {
      CooldownStep(s, es[0], n, until);
      ClockAdvances(s, es[0]);
      FailedNodeIsNotChosen(Apply(s, es[0]), es[1..], n, until);
    }
  }

  lemma ClockAdvances(s: State, e: Event)
    requires Enabled(s, e)
    ensures Apply(s, e).clock == e.now >= s.clock
  {
  }

  /** The nodes an attempt passes over. */
  function PassedOver(s: State, e: Event): set<NodeId>
    requires e.Attempt?
  {
    if e.wake == PolicyUpdate then {} else StillCooling(s.failures, e.now).Keys
  }

  /** Node `n` fails: its worker does not come up, it is missing or unavailable when a switch to it
      would begin, or its tunnel is lost. */
  predicate FailsFor(s: State, e: Event, n: NodeId)
    requires Enabled(s, e)
  {
    match e
    case SwitchDone(_, ok) => !ok && s.phase.node == n
    case HealthCheck(_, ready) => !ready && s.active.value.node == n
    case Attempt(_, _, tests, nodes, lookup, _) =>
      && lookup != NodeReady && tests.Some? && SelectNode(nodes, tests.value, s.policy, PassedOver(s, e)) == Some(n)
      && !(s.active.Some? && s.active.value.node == n)
    case _ => false
  }

  lemma AttemptStaysBounded(s: State, e: Event)
    requires Enabled(s, e) && Bounded(s) && e.Attempt?
    ensures Bounded(Apply(s, e))
  {
  }

  /** The cooldown that a failure starts is the longest entry in the table. */
  lemma BoundedKept(s: State, e: Event)
    requires Enabled(s, e) && Bounded(s)
    ensures Bounded(Apply(s, e))
  {
    if e.Attempt? { AttemptStaysBounded(s, e); }
  }

  lemma MissingNodeCools(s: State, e: Event, n: NodeId)
    requires Enabled(s, e) && Unattended(s) && e.Attempt? && FailsFor(s, e, n)
    ensures CoolingUntil(Apply(s, e), n, e.now + AUTO_NODE_COOLDOWN) && Unattended(Apply(s, e))
  {
    var t := s.(clock := e.now);
    if e.wake == PolicyUpdate {
      t := t.(policyChanged := false, failures := map[], retryDelay := AUTO_RECONNECT_INITIAL);
      assert StillCooling(t.failures, e.now) == map[];
    }
    assert StillCooling(t.failures, e.now).Keys == PassedOver(s, e);
    assert Apply(s, e) == FailAttempt(t.(failures := StillCooling(t.failures, e.now)), n, e.now);
  }

  /** Under the policy each of the three failures starts a cooldown of one minute. */
  lemma FailureStartsCooldown(s: State, e: Event, n: NodeId)
    requires Enabled(s, e) && Unattended(s) && FailsFor(s, e, n)
    ensures CoolingUntil(Apply(s, e), n, e.now + AUTO_NODE_COOLDOWN) && Unattended(Apply(s, e))
  {
    if e.Attempt? { MissingNodeCools(s, e, n); }
  }

  /** From the failure itself: one minute without another attempt on that node. */
  lemma {:induction false} FailedNodeRestsOneMinute(s: State, e: Event, es: seq<Event>, n: NodeId)
    requires Enabled(s, e) && Unattended(s) && FailsFor(s, e, n)
    requires IsRun(Apply(s, e), es)
    requires forall i :: 0 <= i < |es| ==> Automatic(es[i]) && es[i].now < e.now + AUTO_NODE_COOLDOWN
    ensures n !in SwitchTargets(Apply(s, e), es)
  {
    FailureStartsCooldown(s, e, n);
    ClockAdvances(s, e);
    FailedNodeIsNotChosen(Apply(s, e), es, n, e.now + AUTO_NODE_COOLDOWN);
  }

  /** In no run does a node cool down for longer than a minute. */
  lemma {:induction false} BoundedAlongRun(s: State, es: seq<Event>)
    requires IsRun(s, es) && Bounded(s)
    ensures Bounded(Final(s, es))
    decreases |es|
  {
    if es != [] {
      BoundedKept(s, es[0]);
      BoundedAlongRun(Apply(s, es[0]), es[1..]);
    }
  }

  /** The same in every run: whatever happened before, once a node fails under the policy no
      automatic step of the next minute switches to it. */
  lemma {:induction false} FailedNodeRestsInEveryRun(policy: AutoConnectConfig, before: seq<Event>, e: Event,
                                                     after: seq<Event>, n: NodeId)
    requires IsRun(Init(policy), before) && Enabled(Final(Init(policy), before), e)
    requires Unattended(Final(Init(policy), before)) && FailsFor(Final(Init(policy), before), e, n)
    requires IsRun(Apply(Final(Init(policy), before), e), after)
    requires forall i :: 0 <= i < |after| ==> Automatic(after[i]) && after[i].now < e.now + AUTO_NODE_COOLDOWN
    ensures n !in SwitchTargets(Apply(Final(Init(policy), before), e), after)
  {
    FailedNodeRestsOneMinute(Final(Init(policy), before), e, after, n);
  }

  // ----- progress -----

  predicate DelayInRange(s: State) { AUTO_RECONNECT_INITIAL <= s.retryDelay <= AUTO_RECONNECT_MAX }

  lemma DelayStaysInRange(s: State, e: Event)
    requires Enabled(s, e) && DelayInRange(s)
    ensures DelayInRange(Apply(s, e))
  {
  }

  ghost predicate IsBestChoice(s: State, e: Event, n: NodeId)
    requires e.Attempt? && e.tests.Some?
  {
    exists best :: IsBest(best, e.nodes, e.tests.value, s.policy, PassedOver(s, e)) && best.id == n
  }

  /** If only the cooldowns stand in the way, the earliest of them ends in the future. */
  lemma OnlyCoolingBlocks(s: State, now: Instant, tests: map<NodeId, TestRecord>, nodes: seq<Node>)
    requires exists n :: n in nodes && Usable(n, tests, s.policy, {})
    requires SelectNode(nodes, tests, s.policy, StillCooling(s.failures, now).Keys).None?
    ensures SelectNode(nodes, tests, s.policy, {}).Some?
    ensures Earliest(StillCooling(s.failures, now)).Some? && now < Earliest(StillCooling(s.failures, now)).value
  {
    var cooling := StillCooling(s.failures, now);
    SelectNodeIsBest(nodes, tests, s.policy, {});
    assert cooling == map[] ==> cooling.Keys == {};
  }

  lemma AttemptOutcome(s: State, now: Instant, tests: Option<map<NodeId, TestRecord>>, nodes: seq<Node>,
                       lookup: NodeLookup, w: WorkerId)
    requires s.policy.enabled && DelayInRange(s) && s.phase.Idle?
    requires tests.Some? ==> exists n :: n in nodes && Usable(n, tests.value, s.policy, {})
    ensures var r := AttemptAutoConnect(s, now, tests, nodes, lookup, w);
            || (r.retryAt.Some? && now < r.retryAt.value)
            || (tests.Some? &&
                var choice := SelectNode(nodes, tests.value, s.policy, StillCooling(s.failures, now).Keys);
                choice.Some? && (r.phase == Switching(choice.value, w, false)
                                 || (r.active == s.active && r.active.Some? && r.active.value.node == choice.value)))
  {
    if tests.Some? && SelectNode(nodes, tests.value, s.policy, StillCooling(s.failures, now).Keys).None? {
      OnlyCoolingBlocks(s, now, tests.value, nodes);
    }
  }

  /** With the policy on and some node matching it, an attempt ends with the best node that is not
      cooling down either active or being started, or with a wake-up strictly in the future. */
  lemma AttemptMakesProgress(s: State, e: Event)
    requires Enabled(s, e) && e.Attempt? && s.policy.enabled && DelayInRange(s)
    requires e.tests.Some? ==> exists n :: n in e.nodes && Usable(n, e.tests.value, s.policy, {})
    ensures var r := Apply(s, e);
            || (r.retryAt.Some? && e.now < r.retryAt.value)
            || (e.tests.Some? && r.phase.Switching? && IsBestChoice(s, e, r.phase.node))
            || (e.tests.Some? && r.active.Some? && IsBestChoice(s, e, r.active.value.node))
  {
    var t := s.(clock := e.now);
    if e.wake == PolicyUpdate {
      t := t.(policyChanged := false, failures := map[], retryDelay := AUTO_RECONNECT_INITIAL);
      assert StillCooling(t.failures, e.now) == map[];
    }
    assert StillCooling(t.failures, e.now).Keys == PassedOver(s, e);
    assert Apply(s, e) == AttemptAutoConnect(t, e.now, e.tests, e.nodes, e.lookup, e.worker);
    AttemptOutcome(t, e.now, e.tests, e.nodes, e.lookup, e.worker);
    if e.tests.Some? { SelectNodeIsBest(e.nodes, e.tests.value, s.policy, PassedOver(s, e)); }
  }

  /** ... and the started switch then ends with that node active or with a later wake-up. */
  lemma SwitchMakesProgress(s: State, e: Event)
    requires Enabled(s, e) && e.SwitchDone? && !s.phase.manual && DelayInRange(s)
    ensures e.ok ==> Apply(s, e).active == Some(Active(s.phase.worker, s.phase.node, e.now))
    ensures !e.ok ==> Apply(s, e).retryAt == Some(e.now + s.retryDelay) && e.now < e.now + s.retryDelay
    ensures !e.ok ==> Apply(s, e).active == s.active && Apply(s, e).published == s.published
  {
  }

  // ----- back-off -----

  /** min(2^k, 30) seconds. */
  function Backoff(k: nat): nat {
    if Pow2(k) < 30 then 1_000 * Pow2(k) else 30_000
  }

  lemma DoubledBackoff(k: nat)
    ensures Doubled(Backoff(k)) == Backoff(k + 1)
  {
    assert Pow2(k + 1) == 2 * Pow2(k);
  }

  /** Straight failures after one more event, given `k` before it. */
  ghost function Streak(s: State, e: Event, k: nat): nat
    requires Enabled(s, e)
  {
    match e
    case SetPolicy(_, _) => k
    case Drained(_, _) => k
    case HealthCheck(_, ready) => if !ready && s.policy.enabled then k + 1 else k
    case Disconnect(_) => 0
    case Connect(_, node, lookup, _) =>
      if (s.active.Some? && s.active.value.node == node) || lookup != NodeReady then 0 else k
    case SwitchDone(_, ok) => if s.phase.manual || ok then 0 else k + 1
    case Attempt(_, wake, tests, nodes, lookup, _) =>
      if !s.policy.enabled then 0
      else
        var k := if wake == PolicyUpdate then 0 else k;
        if tests.None? then k + 1
        else
          var choice := SelectNode(nodes, tests.value, s.policy, PassedOver(s, e));
          if choice.None? then k
          else if s.active.Some? && s.active.value.node == choice.value then 0
          else if lookup != NodeReady then k + 1 else k
  }

  lemma StreakStep(s: State, e: Event, k: nat)
    requires Enabled(s, e) && s.retryDelay == Backoff(k)
    ensures Apply(s, e).retryDelay == Backoff(Streak(s, e, k))
  {
    DoubledBackoff(k);
    DoubledBackoff(0);
    if e.Attempt? && e.wake == PolicyUpdate {
      assert StillCooling(map[], e.now) == map[];
      assert StillCooling(map[], e.now).Keys == PassedOver(s, e);
    }
  }

  ghost function StraightFailures(s: State, es: seq<Event>, k: nat): nat
    requires IsRun(s, es)
    decreases |es|
  {
    if es == [] then k else StraightFailures(Apply(s, es[0]), es[1..], Streak(s, es[0], k))
  }

  /** In every run the retry delay is a function of the number of straight failures. */
  lemma {:induction false} DelayFollowsFailures(s: State, es: seq<Event>, k: nat)
    requires IsRun(s, es) && s.retryDelay == Backoff(k)
    ensures Final(s, es).retryDelay == Backoff(StraightFailures(s, es, k))
    decreases |es|
  {
    if es != [] {
      StreakStep(s, es[0], k);
      DelayFollowsFailures(Apply(s, es[0]), es[1..], Streak(s, es[0], k));
    }
  }

  lemma {:induction false} DelayRangeAlongRun(s: State, es: seq<Event>)
    requires IsRun(s, es) && DelayInRange(s)
    ensures DelayInRange(Final(s, es))
    decreases |es|
  {
    if es != [] {
      DelayStaysInRange(s, es[0]);
      DelayRangeAlongRun(Apply(s, es[0]), es[1..]);
    }
  }

  /** After any run, an attempt under the policy makes progress, and the delay is the back-off of
      the failures since the last success or command. */
  lemma {:induction false} ProgressInEveryRun(policy: AutoConnectConfig, es: seq<Event>, e: Event)
    requires IsRun(Init(policy), es) && Enabled(Final(Init(policy), es), e) && e.Attempt?
    requires var s := Final(Init(policy), es);
             s.policy.enabled && (e.tests.Some? ==> exists n :: n in e.nodes && Usable(n, e.tests.value, s.policy, {}))
    ensures var s := Final(Init(policy), es);
            var r := Apply(s, e);
            && s.retryDelay == Backoff(StraightFailures(Init(policy), es, 0))
            && (|| (r.retryAt.Some? && e.now < r.retryAt.value)
                || (e.tests.Some? && r.phase.Switching? && IsBestChoice(s, e, r.phase.node))
                || (e.tests.Some? && r.active.Some? && IsBestChoice(s, e, r.active.value.node)))
  {
    DelayFollowsFailures(Init(policy), es, 0);
    DelayRangeAlongRun(Init(policy), es);
    AttemptMakesProgress(Final(Init(policy), es), e);
  }

  // ----- a disabled policy -----

  /** Events that can occur while nobody connects, disconnects or enables the policy. */
  predicate HandsOff(e: Event) {
    !e.Connect? && !e.Disconnect? && (e.SetPolicy? ==> !e.policy.enabled)
  }

  lemma DisabledStep(s: State, e: Event)
    requires Enabled(s, e) && HandsOff(e) && !s.policy.enabled && s.phase.Idle?
    ensures var r := Apply(s, e);
            && !r.policy.enabled && r.phase.Idle? && r.used == s.used
            && (r.active == s.active || (e.HealthCheck? && !e.ready && r.active.None?))
            && (r.active == s.active ==> r.published == s.published && r.shown == s.shown)
  {
    EventEffect(s, e);
  }

  /** While the policy is off no automatic step starts a worker or replaces the connection; it can
      only be lost when its tunnel fails. */
  lemma {:induction false} DisabledPolicyChangesNothing(s: State, es: seq<Event>)
    requires IsRun(s, es) && !s.policy.enabled && s.phase.Idle?
    requires forall i :: 0 <= i < |es| ==> HandsOff(es[i])
    ensures Final(s, es).used == s.used && Final(s, es).phase.Idle?
    ensures Final(s, es).active == s.active || Final(s, es).active.None?
    ensures (forall i :: 0 <= i < |es| && es[i].HealthCheck? ==> es[i].ready) ==>
              var r := Final(s, es); r.active == s.active && r.published == s.published && r.shown == s.shown
    decreases |es|
  {
    if es != [] {
      DisabledStep(s, es[0]);
      DisabledPolicyChangesNothing(Apply(s, es[0]), es[1..]);
    }
  }
}
