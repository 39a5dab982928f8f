# Verified model of vpngate2socks

vpngate2socks downloads the VPN Gate node list, sanitizes each OpenVPN profile, tests nodes, keeps one
tunnel connected and serves it as a SOCKS5 gateway. A privileged helper (`netd`) starts and stops the
tunnel workers. This project models the parts of it in which several components have to agree, and proves
what they promise each other:

- **The worker manager of the helper** (`NetdProtocol`, `NetdInvariants`, `NetdResources`, `NetdTheorems`,
  `NetdCapacity`, `NetdOvershoot`, `NetdRuns`, `NetdListing`, `WorkerManager`, `Fleet`). Each critical section
  of `start`, `stop` and the two `Drop` implementations, and each command that makes or removes a directory, a
  network, a process or a monitor task, is one atomic step; the accepted clients interleave them, and the
  commands of set-up and clean-up succeed or fail freely. Every error exit of `start` carries its own clean-up
  list. `Reachable` is the set of states of all such runs. The class `WorkerManager` holds what exists in a
  field of its own; every object stays in a state that its history of steps leads to, and `Start` and `Stop`
  are whole calls.
- **The connection actor** (`ActorProtocol`, `ActorSafety`, `ActorPolicy`, `ConnectionActor`). One event is
  one arm of the actor's `select!`; a switch is two events, because drain timers and API calls run while
  the new worker starts. Safety is stated by an independent monitor over the trace of visible effects. The
  class `ConnectionActor` keeps the invariant in every arm, and its `Run` handles any list of events.
- **The test pipeline** (`TestRegistry`, `TestPipeline`, `PipelineInvariants`, `PipelineTheorems`,
  `TestService`): enqueuers under the registry lock, bounded channel, dispatcher with its semaphore, test
  tasks, counters and the automatic scheduler, interleaved step by step.
- **Profiles** (`Text`, `AddressText`, `OpenVpn`, `ProfileReading`, `ProfileTheorems`, `ProfileSafety`,
  `ProfileLimits`, `ProfileGrowth`, `Mihomo`, `MihomoExport`, `NodeColumns`, `VpnGate`): the sanitizer as a parser and printer, its second
  pass in the helper, the scans of the Mihomo exporter, and the node rows that carry profiles.
- **Wire formats** (`Bits`, `Addresses`, `Socks`, `Dns`, `DnsResponses`): SOCKS5 requests and replies
  (RFC 1928), DNS queries and responses (RFC 1035), the public-address test and the address that is dialled.
- **Rankings** (`Sorting`, `Nodes`): automatic selection, the test queue and the paged node list.

Where a promise does not hold of the code as it is, the model keeps the code and states exactly when it holds:

- `max_workers` can be exceeded, because `reserve` reads `workers` and `starting` separately. The excess is
  exactly min(`max_workers`, 31): `NetdOvershoot.OvershootIsBounded` and, for every limit, `NetdOvershoot.LimitIsExceeded`.
  If no second read finds more workers than the first one counted, listed and admitted workers stay within the
  limit (`NetdCapacity.FreshReadsKeepLimit`); once they do not, some continuation lists them all
  (`NetdListing.ExcessLoadIsListed`).
- A failed clean-up command is only logged, so that an index can be free while its network still exists
  (`NetdOvershoot.FreeIndexCanKeepItsNetwork`). This is so exactly if the last clean-up of that network failed
  (`NetdRuns.FreeIndexIsCleanUnlessCleanUpFailed`); without failed clean-ups everything that exists has an owner.
- The text of an accepted profile can be larger than the profile, so that the helper refuses it:
  `ProfileLimits.PrintingCanOutgrowLimit` gives a family of such inputs for every endpoint,
  `ProfileTheorems.ResanitizingIsStable` shows that the size of the text is the only reason, and the growth is at
  most 100 bytes (`ProfileGrowth.SanitizingAddsLittle`), which is attained (`ProfileGrowth.GrowthIsAttained`).
- The scheduler enqueues a node twice when a round lists its id twice (`parse_snapshot` does not remove
  repeats): `PipelineTheorems.RepeatedCandidateIsScheduledTwice`, against `PipelineTheorems.ScheduledAtMostOnce`.
- A scalar that the options do not contain is exported nevertheless exactly when a stored body has a line that
  begins with its name (`Mihomo.ScalarScanIsExact`); `MihomoExport.BodyLineIsExported` gives accepted profiles for
  every endpoint and every word that are exported with that word as their cipher, or left out because of it.

Every lemma to which Dafny would apply automatic induction carries `{:induction false}`: inductions are spelled out
as recursive calls, because the automatic hypothesis over a sequence also speaks of sequences of other types.

Time is a natural number of milliseconds, worker and operation ids are fresh, node ids are numbers ordered like
the digests they stand for, and a `char` is a Unicode scalar value whose size is its UTF-8 length.

## Model

| member | source | states |
|---|---|---|
| `NetdResources.InvKept` | src/netd/system.rs:176-549 | every atomic step of every client, with commands that succeed or fail, keeps the invariants about reservations, checked starts, leases, runs, index partition, capacity, clean-up lists, directories and what exists |
| `NetdResources.ReachableInv` | src/netd/system.rs:176-549 | the invariants hold in every state that any interleaving reaches from an empty manager |
| `NetdResources.CleanUpMatchesParts` | src/netd/system.rs:196-402 | the clean-up written at each of the twelve exits of `start` names exactly what exists there, and the network also where its set-up failed |
| `NetdResources.CleanUpIsOrdered` | src/netd/system.rs:196-402 | at every exit the monitor goes before the processes, these before their network, and the directory last |
| `NetdResources.StopListIsParts` | src/netd/system.rs:1281-1289 | `stop_process` names exactly the five parts of a worker |
| `NetdResources.LeftOverAlongRun` | src/netd/system.rs:1291-1325 | along every run a resource without an owner exists iff its last clean-up command failed |
| `NetdInvariants.FreshIndexIsLiveCount` | src/netd/system.rs:500-540 | with an empty free list the counter is one more than the number of live leases, and far below the last index |
| `NetdRuns.ReservationHasOneHolder` | src/netd/system.rs:404-433 | in every reachable state an id is in `starting` iff some task holds its reservation, and never two tasks do |
| `NetdRuns.OnlyHolderActs` | src/netd/system.rs:142-150 | only the holder's own drop removes a reservation, only the holder inserts a worker, a rejected duplicate frees nothing of others, and the late duplicate branch of `start` is unreachable |
| `NetdRuns.IndicesArePartitioned` | src/netd/system.rs:500-549 | the issued indices 1..next-1 are at all times the disjoint union of live leases and the free list, without repeats |
| `NetdRuns.EveryAllocationSucceeds` | src/netd/system.rs:500-520 | an admitted start always gets a usable index that is not live, and a fresh index is the number of live leases, at most `max_workers` + 63 |
| `NetdRuns.LiveWorkersAreSeparate` | src/netd/system.rs:520-540 | both ends of a live allocation share one /30 inside 10.231.0.0/16; different live indices never share a /30 or a hexadecimal name |
| `NetdRuns.ResourcesHaveOneOwner` | src/netd/system.rs:176-402 | in every reachable state a directory, network, process or monitor has at most one owner, the owner holds the lease under which it was made, and what is owned exists, except a network whose set-up failed |
| `NetdRuns.FailureKeepsOwnership` | src/netd/system.rs:196-402 | at every exit the failing task stays the owner of exactly what it had, and of the network if that failed, so that its clean-up misses nothing |
| `NetdRuns.LeftOversAreFailedCleanUps` | src/netd/system.rs:1291-1325 | in every run what exists without an owner is exactly what its last clean-up failed to remove |
| `NetdRuns.FreeIndexIsCleanUnlessCleanUpFailed` | src/netd/system.rs:542-549 | in every run an index in the free list has a network left iff the last clean-up of that network failed, and no clean-up of it is still to come |
| `NetdRuns.WithoutFailuresNothingIsLeft` | src/netd/system.rs:176-452 | in every run whose clean-up commands succeed, everything that exists has an owner: no exit and no stop leaves anything behind |
| `NetdRuns.ShutdownLeavesNothing` | src/netd/system.rs:487-498 | after the clients are joined, `stop_all` in any order and with any failing commands ends with no worker and no lease, and exactly what a clean-up failed to remove is left |
| `NetdRuns.NoWorkerAfterJoin` | src/netd/system.rs:622-628 | in every run, once the clients are joined no continuation adds a worker |
| `NetdRuns.AtomicLimitHolds` | src/netd/system.rs:418-432 | if nothing comes between the two reads of any `reserve`, listed plus admitted workers never exceed `max_workers` in any run |
| `NetdTheorems.IssuedIndicesArePartitioned` | src/netd/system.rs:500-549 | the partition invariant gives exact counts of free and live indices |
| `NetdTheorems.AllocationNeverSaturates` | src/netd/system.rs:500-540 | the byte arithmetic of the addresses is never reached with an index beyond the last /30 |
| `NetdTheorems.LiveSubnetsAreDisjoint` | src/netd/system.rs:520-540 | addresses of different indices differ by at least one /30 |
| `NetdTheorems.Hex4Injective` | src/netd/system.rs:520-540 | four hexadecimal digits identify a 16-bit index, so interface names do not collide |
| `NetdTheorems.CleanUpReturnsEverything` | src/netd/system.rs:1281-1325 | whatever the commands answer, a failed start or a stop goes through its list in order, then returns the index, then the reservation, removes exactly what its commands removed and changes nothing else |
| `NetdTheorems.JoinedManagerOnlyDrains` | src/netd/system.rs:622-628 | from a state in which all clients are joined nothing adds a worker, in any continuation |
| `NetdTheorems.StopAllEmptiesManager` | src/netd/system.rs:487-498 | taking out and cleaning up the listed workers in any order runs to its end and leaves no worker and no task |
| `NetdCapacity.FreshReadsKeepLimit` | src/netd/system.rs:418-432 | in every run whose second reads find no more workers than were counted, listed plus admitted workers never exceed `max_workers` |
| `NetdCapacity.LoadIsBounded` | src/netd/system.rs:404-433 | in every interleaving listed plus admitted workers are at most twice the limit |
| `NetdCapacity.ReserveAdmits` | src/netd/system.rs:404-433 | an uninterrupted `reserve` admits iff the id is unknown and the sum is below the limit, and a refusal changes nothing |
| `NetdListing.LoadCanBeListed` | src/netd/system.rs:196-402 | from a state whose resources all have owners and that is not shutting down, some continuation lists exactly the listed and admitted workers |
| `NetdListing.ExcessLoadIsListed` | src/netd/system.rs:404-433 | in every run without failed clean-up or shutdown, listed plus admitted workers above the limit end up listed in some continuation |
| `NetdOvershoot.OvershootIsBounded` | src/netd/system.rs:404-433 | in every interleaving at most `max_workers` + min(`max_workers`, 31) workers run |
| `NetdOvershoot.LimitIsExceeded` | src/netd/system.rs:418-432 | for every limit some interleaving of at most 32 clients ends with exactly that many workers |
| `NetdOvershoot.FreeIndexCanKeepItsNetwork` | src/netd/system.rs:1297-1317 | for every limit some interleaving frees an index whose network still exists |
| `WorkerManagers.WorkerManager.constructor` | src/netd/system.rs:153-175 | a new manager is empty and its limit is `max_parallel_tests` + 8, at most 64 |
| `WorkerManagers.ValidIsReachable` | src/netd/system.rs:152-541 | every manager object is in the reachable state that its recorded steps lead to |
| `WorkerManagers.ExitUndoes` | src/netd/system.rs:196-402 | whatever exit is taken and whatever its commands answer, nothing of before is missing but a network left over under the drawn index, and nothing is new but what resisted |
| `WorkerManagers.WorkerManager.ReserveInsert` | src/netd/system.rs:404-417 | the first critical section of `reserve` is the reservation step |
| `WorkerManagers.WorkerManager.ReadRunning` | src/netd/system.rs:418-424 | the read of `workers` is the counting step |
| `WorkerManagers.WorkerManager.ReadReserved` | src/netd/system.rs:425-433 | the read of `starting` is the admission step |
| `WorkerManagers.WorkerManager.Reserve` | src/netd/system.rs:404-433 | result and new state of an uninterrupted `reserve`; every refusal restores the state |
| `WorkerManagers.WorkerManager.AllocateNetwork` | src/netd/system.rs:500-540 | the allocator draws the last freed index, else the wrapping 16-bit counter, and the index is usable and not live |
| `WorkerManagers.WorkerManager.Remove` | src/netd/system.rs:1291-1325 | one clean-up command takes its resource away or is recorded as failed, and the commands still to come stay the same |
| `WorkerManagers.WorkerManager.StopProcess` | src/netd/system.rs:1281-1289 | monitor, SOCKS process, tunnel process, network and directory are cleaned up, and what resists stays |
| `WorkerManagers.WorkerManager.Abandon` | src/netd/system.rs:196-402 | each exit calls its own clean-up, and what exists afterwards is what existed at the exit without what its commands removed |
| `WorkerManagers.WorkerManager.SetUp` | src/netd/system.rs:196-393 | the set-up succeeds iff nothing is left over in its place and every external step succeeds; it ends with all five parts or at an exit with its clean-up done |
| `WorkerManagers.WorkerManager.BuildWorker` | src/netd/system.rs:195-402 | with an index drawn the outcome is a listed worker with its five parts, or everything undone before the index is free again |
| `WorkerManagers.WorkerManager.StartAdmitted` | src/netd/system.rs:186-402 | from admission on, the whole new state for a refused profile, a failed set-up and a success |
| `WorkerManagers.WorkerManager.Start` | src/netd/system.rs:176-402 | `start` answers with its first error and succeeds iff the id is new, capacity is left, nothing is left over and every step succeeds; then exactly one worker, lease and its five parts are new; otherwise workers, leases and reservations are as before, everything made was cleaned up while the index was still leased, and nothing remains but what resisted |
| `WorkerManagers.WorkerManager.Stop` | src/netd/system.rs:443-452 | `stop` takes the worker out of the map, cleans up its five parts and only then frees its index; an unknown id changes nothing |
| `Fleet.CountByRole` | src/service.rs:909-917 | no worker has two roles, so the helper's count is active plus starting plus draining plus tests |
| `Fleet.SwitchRefusedExactlyWhenFull` | src/service.rs:833-919 | in every run a switch is refused iff active, draining and tested workers fill the helper, hence never while at most 6 old workers drain |
| `Fleet.AdmissionIsTheHelpers` | src/netd/system.rs:168-171 | the admission rule of the fleet is the helper's atomic `reserve` with its limit |
| `ActorSafety.ViewsAgreeInEveryRun` | src/service.rs:646-768 | in every run a socket is published iff a connection is active and is that worker's; between events `Connected` is shown iff it describes exactly the active connection, else `Disconnected` or `Failed` |
| `ActorSafety.MonitorAcceptsEveryRun` | src/service.rs:646-919 | the monitor accepts every prefix of the visible effects of every run |
| `ActorSafety.AcceptedRouteIsLive` | src/service.rs:833-919 | in an accepted trace the published worker was started and nobody asked it to stop |
| `ActorSafety.RouteWaitsForOutcome` | src/service.rs:855-903 | in an accepted trace nothing is published between the request of a worker and its outcome, so a live route stays while its replacement starts |
| `ActorSafety.AcceptedStopsOnce` | src/service.rs:904-917 | in an accepted trace no worker is asked to stop twice |
| `ActorSafety.EventEffect` | src/service.rs:701-757 | every arm either leaves the connection alone, begins a switch, ends one, drops it or stops a drained worker |
| `ActorPolicy.FailedNodeIsNotChosen` | src/service.rs:770-831 | while a node cools down no automatic step of any run without policy change or command switches to it |
| `ActorPolicy.FailedNodeRestsOneMinute` | src/service.rs:701-854 | a node whose worker did not start, that was missing or unavailable at the switch, or whose tunnel was lost is not selected automatically for 60 seconds, from any state under the policy |
| `ActorPolicy.FailedNodeRestsInEveryRun` | src/service.rs:770-831 | the same after every run from the start, whatever happened before |
| `ActorPolicy.BoundedAlongRun` | src/service.rs:816-829 | in no run does a node cool down for longer than 60 seconds |
| `ActorPolicy.AttemptMakesProgress` | src/service.rs:770-831 | an attempt with a matching node ends with the best non-cooling node active or requested, or with a wake-up strictly in the future |
| `ActorPolicy.SwitchMakesProgress` | src/service.rs:833-919 | an automatic switch ends with its node active or with a wake-up strictly in the future |
| `ActorPolicy.DelayFollowsFailures` | src/service.rs:770-831 | after k straight failures the retry delay is min(2^k, 30) seconds, in every run |
| `ActorPolicy.ProgressInEveryRun` | src/service.rs:770-831 | progress and back-off hold for the next attempt after every run |
| `ActorPolicy.DisabledPolicyChangesNothing` | src/service.rs:770-790 | while the policy is disabled no automatic step changes the connection, except that a lost tunnel is dropped |
| `ConnectionActors.ConnectionActor.OnWake` | src/service.rs:646-720 | the arms for retry timer, policy change and trigger take exactly the modelled attempt; the connection and its route stay as they are, and the three views agree |
| `ConnectionActors.ConnectionActor.OnSwitchDone` | src/service.rs:833-919 | the end of a switch takes exactly the modelled step, for manual and automatic switches; the new worker is active or the old connection stays, the old worker drains, and the three views agree |
| `ConnectionActors.ConnectionActor.OnHealthCheck` | src/service.rs:701-732 | the health arm drops a lost connection and starts the cooldown; the three views agree |
| `ConnectionActors.ConnectionActor.OnConnect` | src/service.rs:733-742 | the manual connect arm forgets retries and requests the worker unless it is already active; the connection and its route stay as they are, and the three views agree |
| `ConnectionActors.ConnectionActor.OnDisconnect` | src/service.rs:743-757 | the manual disconnect arm clears route, state and retries and stops the worker; the three views agree |
| `ConnectionActors.ConnectionActor.OnDrained` | src/service.rs:904-917 | a drain timer stops exactly its own worker, which is not the published one |
| `ConnectionActors.ConnectionActor.Run` | src/service.rs:646-768 | whatever list of events is handled, the monitor accepts everything the actor has done, and active connection, published socket and shown state agree in the end |
| `ConnectionActors.EarliestOf` | src/service.rs:770-831 | the loop finds the minimum of the cooldown deadlines |
| `TestRegistries.PruningKeepsNewest` | src/test_registry.rs:91-117 | pruning leaves at most the limit, removes no unfinished operation and none newer than one it keeps |
| `TestRegistries.OldestExcess` | src/test_registry.rs:91-117 | collecting, sorting by time and cutting the front is such a pruning |
| `TestRegistries.Collect` | src/test_registry.rs:92-102 | every finished operation is collected once with its own time |
| `TestRegistries.FinishingKeeps` | src/test_registry.rs:69-82 | completing a pending operation keeps pending entries and in-flight operations in one-to-one agreement and the history within its limit |
| `TestRegistries.TestRegistry.Queue` | src/test_registry.rs:27-43 | a pending node returns its operation and changes nothing; another is registered once |
| `TestRegistries.TestRegistry.RollbackQueued` | src/test_registry.rs:45-50 | removes the operation and the pending entry only if it is the same operation |
| `TestRegistries.TestRegistry.Complete` | src/test_registry.rs:69-82 | finishes the operation, remembers the node and prunes the history |
| `TestRegistries.TestRegistry.KnownNodes` | src/test_registry.rs:84-90 | exactly the pending and the observed nodes |
| `PipelineInvariants.JobsKept` | src/service.rs:420-456 | every step keeps each job in exactly one place while it is pending and in none otherwise |
| `PipelineInvariants.InvKept` | src/service.rs:921-944 | every step keeps counters, permits, jobs, registry and history consistent |
| `PipelineTheorems.CountersAreExact` | src/service.rs:921-944 | in every run `running_tests` never exceeds the permits nor these the parallelism limit, `queued_tests` stays within the channel plus two, and every decrement finds a positive counter |
| `PipelineTheorems.JobsMatchPending` | src/service.rs:428-455 | whenever the lock is free, jobs in the channel, with the dispatcher or not completed match `pending_by_node` one to one |
| `PipelineTheorems.OneTestPerNode` | src/test_registry.rs:19-25 | two jobs under way for one node are the same job, in one place |
| `PipelineTheorems.RegistryStaysConsistent` | src/test_registry.rs:27-82 | in every run a pending entry names a queued or running operation of its node and vice versa, and at most 1024 finished operations remain |
| `PipelineTheorems.ScheduledAtMostOnce` | src/service.rs:559-588 | the scheduler newly enqueues a node at most once while it stays in every snapshot and no round lists it twice |
| `PipelineTheorems.DistinctSnapshotsDoNotRepeat` | src/automatic_tests.rs:28-59 | snapshots with distinct ids never list a candidate twice |
| `PipelineTheorems.RepeatedCandidateIsScheduledTwice` | src/service.rs:559-588 | whenever the selection lists a node twice, some run newly enqueues it twice |
| `TestServices.TestService.EnqueueTestJob` | src/service.rs:420-456 | result and new state of one enqueue; a refusal, above all a full queue, leaves registry, channel and counter as they were |
| `TestServices.TestService.ScheduleAutomaticTests` | src/service.rs:574-587 | the loop appends exactly the first new jobs that the channel has room for, in candidate order, counts them and disturbs no pending test |
| `TestServices.NewJobsAreOpen` | src/service.rs:574-587 | the new jobs are for exactly the listed nodes that are ready and were not pending |
| `TestServices.RollbackUndoesQueueing` | src/test_registry.rs:45-50 | rolling a fresh registration back restores the registry exactly |
| `Texts.LinesOfUnlines` | src/openvpn.rs:110-112 | printed lines without line feeds or trailing carriage returns split into themselves |
| `Texts.WordsOfSpaced` | src/openvpn.rs:163 | words printed with single spaces are read back as those words |
| `Texts.InOrderSize` | src/openvpn.rs:288-291 | the printed size of an ordered set does not depend on where a member stands |
| `AddressTexts.Ipv4RoundTrip` | src/openvpn.rs:199-201 | a printed address parses to itself |
| `AddressTexts.PortRoundTrip` | src/openvpn.rs:205-209 | a printed port parses to itself and is one plain word |
| `OpenVpn.ReadInlineBlock` | src/openvpn.rs:127-151 | the block loop yields the body up to the closing line and the lines after it, or fails for an open, oversized or nested block |
| `OpenVpn.ParseText` | src/openvpn.rs:97-262 | the line loop computes the specified profile or the specified first error |
| `OpenVpn.RenderOptions` | src/openvpn.rs:288-291 | the option loop prints the set in its order |
| `OpenVpn.RenderBlocks` | src/openvpn.rs:292-302 | the block loop prints the stored blocks in the fixed order |
| `OpenVpn.SanitizeOpenVpn` | src/openvpn.rs:93-310 | the whole sanitizer computes the specified text and endpoint or the specified error |
| `ProfileReading.OptionsLead` | src/openvpn.rs:223-247 | reading printed options adds exactly those options |
| `ProfileReading.HeaderLeads` | src/openvpn.rs:277-281 | reading the fixed header sets protocol, device and endpoint and nothing else |
| `ProfileReading.BodyIsRead` | src/openvpn.rs:127-151 | the lines of an accepted body are read back as that body |
| `ProfileReading.BlockLeads` | src/openvpn.rs:118-161 | reading a printed block stores exactly its body |
| `ProfileTheorems.AcceptedIsWellFormed` | src/openvpn.rs:93-262 | an accepted text yields only allowlisted options, intact bodies under known names, the expected address and a non-zero port |
| `ProfileTheorems.RenderedLeads` | src/openvpn.rs:277-302 | reading the printed text of a well-formed profile yields the same profile plus the forced option |
| `ProfileTheorems.RereadIsParsed` | src/openvpn.rs:97-103 | the printed text is parsed back unless it exceeds the size limit |
| `ProfileTheorems.RereadSize` | src/openvpn.rs:282-291 | the second text is exactly as long as the first |
| `ProfileTheorems.ResanitizingIsStable` | src/netd/system.rs:189-194 | sanitizing the output again succeeds iff it is at most 256 KiB, keeps remote and blocks, adds at most `remote-cert-tls server`, and is a fixed point from then on |
| `ProfileTheorems.FirstTextIsFixedWhen` | src/openvpn.rs:282-291 | the first text is already a fixed point iff the profile stated the forced option or no other option sorts before it |
| `ProfileSafety.AcceptedDirectivesAreHarmless` | src/openvpn.rs:169-261 | a text with one dangerous, unknown or file-reading directive anywhere outside its blocks is refused |
| `ProfileSafety.SanitizedIsHarmless` | src/openvpn.rs:17-23 | neither an accepted profile nor its sanitized text has a directive outside the allowlist |
| `ProfileLimits.PrintingCanOutgrowLimit` | src/openvpn.rs:277-302 | for every endpoint there are accepted profiles within 256 KiB whose printed text the second pass refuses as too large |
| `ProfileGrowth.WordsFit` | src/openvpn.rs:163 | the words of a line and the blanks between them fit into the line |
| `ProfileGrowth.ParseCost` | src/openvpn.rs:112-262 | options, blocks and the shortest lines that state protocol, device and endpoint never take more room than the lines read |
| `ProfileGrowth.SanitizingAddsLittle` | src/openvpn.rs:93-310 | the sanitized text is at most 100 bytes longer than the profile, so a profile that much below 256 KiB passes both passes with the same endpoint |
| `ProfileGrowth.GrowthIsAttained` | src/openvpn.rs:277-302 | every profile within the limit that states only its blocks, device, protocol and endpoint, as shortly as it can, grows by exactly 100 bytes |
| `ProfileGrowth.ShortProfileExists` | src/openvpn.rs:93-310 | there are such profiles for every endpoint |
| `Mihomo.InlineBlock` | src/mihomo.rs:136-151 | the two loops of the block scan compute the specified scan |
| `Mihomo.BlockScanIsExact` | src/mihomo.rs:136-151 | for every accepted profile the scan returns exactly the stored body, and nothing for an absent block |
| `Mihomo.ScalarScanIsExact` | src/mihomo.rs:129-134 | a scalar in the options is exported with its smallest value, another with what follows it in the first body line that begins with it; the export differs from the options iff there is such a line |
| `MihomoExport.ExportIsExact` | src/mihomo.rs:18-65 | an accepted profile is left out iff an exported algorithm is unknown or it has two TLS blocks; a record carries exactly its blocks and its exported scalars |
| `MihomoExport.ExportFollowsOptions` | src/mihomo.rs:18-65 | where no body line is picked up, support and record are decided by the options alone |
| `MihomoExport.BodyLineIsExported` | src/mihomo.rs:129-134 | for every endpoint and every word an accepted profile without options is exported with that word as its cipher, or left out because it names none |
| `NodeColumns.ColumnsAreExact` | src/vpngate.rs:187-211 | the texts and numbers that rows are read as are exactly those within the limits of their columns |
| `VpnGate.ParseRecord` | src/vpngate.rs:187-256 | a row with its fifteen columns becomes a node exactly as specified, over every sanitizer outcome, with the key of its id |
| `VpnGate.NodeIdentity` | src/vpngate.rs:258-271 | two available rows have the same id key iff they have the same host name and the same sanitized profile |
| `VpnGate.AvailabilityMeansProfile` | src/vpngate.rs:217-256 | availability, profile and TCP port appear together and agree on a public endpoint with a non-zero port |
| `VpnGate.AvailablePassesHelper` | src/netd/system.rs:186-194 | the profile of an available node passes the helper's three checks iff its text is at most 256 KiB |
| `VpnGate.ParseSnapshot` | src/vpngate.rs:149-185 | every data row is counted once as accepted or rejected, nodes are the accepted rows in order, and too many rows are refused |
| `Addresses.MaskIsInterval` | src/domain.rs:726-734 | for every block the mask test is membership in its numeric interval |
| `Addresses.PublicIsNotReserved` | src/domain.rs:725-751 | the fifteen tests accept exactly the addresses outside the reserved ranges, by first and last address (section 2.2.2 of RFC 6890, and multicast) |
| `Socks.RequestRoundTrip` | src/socks.rs:749-766 | decoding the encoded request of any allowed target yields that target and leaves exactly the following bytes |
| `Socks.AcceptedRequestIsCanonical` | src/socks.rs:428-493 | whatever bytes arrive, an accepted request is an allowed target and its only encoding |
| `Socks.ReplyRoundTrip` | src/socks.rs:768-816 | the reader consumes exactly the reply that was sent |
| `Socks.WorkerAcceptsForwardedRequest` | src/socks.rs:730-747 | a worker accepts every request the gateway accepted and sees the payload from its first byte |
| `Socks.ReadRequest` | src/socks.rs:428-464 | reading from a stream consumes and returns exactly what the decoder does |
| `Socks.ReadReply` | src/socks.rs:768-796 | reading a reply from a stream consumes exactly its bytes, for all three address types |
| `Dns.TopBits` | src/socks.rs:690-703 | the mask tests on a length byte are its numeric ranges |
| `Dns.SkipDnsName` | src/socks.rs:685-722 | for arbitrary bytes the loop stays in range, ends strictly behind its start and computes the specified offset |
| `Dns.LabelsAreSkipped` | src/socks.rs:685-722 | encoded labels take exactly one step each |
| `Dns.NameIsSkipped` | src/socks.rs:685-722 | plain and pointer-ended names of fewer than 128 labels are skipped exactly |
| `Dns.EncodeDnsQuery` | src/socks.rs:586-609 | the label loop computes the specified query or refuses an empty or long label |
| `Dns.QueryNameSteps` | src/socks.rs:586-609 | a query is the domain's length plus 18, and skipping its name lands on the query type iff there are more steps than labels |
| `Dns.AllowedNamesAreSkipped` | src/socks.rs:476-482 | the cap of 128 steps suffices for every allowed domain |
| `Dns.CapIsReached` | src/socks.rs:685-722 | some allowed domain needs all 128 steps |
| `DnsResponses.ParseDnsAResponse` | src/socks.rs:615-683 | the parser computes the specified result on arbitrary bytes |
| `DnsResponses.ReadRecord` | src/socks.rs:650-674 | one record contributes its address only if it is class IN, type A with four bytes, and moves the offset to its end |
| `DnsResponses.ReadAllAnswers` | src/socks.rs:647-675 | the answer loop collects the contributions in order or fails with the first error |
| `DnsResponses.ResponseIsParsed` | src/socks.rs:615-683 | for every list of at most 8 questions and 128 answers in the format of section 4.1 of RFC 1035 the parser returns exactly the A/IN data in order, or an error if there is none |
| `DnsResponses.ResolvePublicTarget` | src/socks.rs:495-509 | a literal address is kept; a domain resolves to the first public address of the first server that has one |
| `DnsResponses.DialTarget` | src/socks.rs:303-344 | whatever a client sends and whatever servers answer, the dialled address is outside every reserved range and has a non-zero port |
| `Sorting.SortIgnoresOrder` | src/automatic_tests.rs:42-58 | sorting by a total order that tells members apart does not depend on the input order |
| `Nodes.SelectNodeIsBest` | src/auto_connect.rs:12-37 | a node is chosen iff one is usable, and no usable node ranks above it |
| `Nodes.ChosenNodeIsFastest` | src/auto_connect.rs:12-80 | the chosen node is available, not excluded and has the wanted traits on record, and no usable node is faster, or as fast with a higher score, or equal in both with a lower ping |
| `Nodes.SelectionIgnoresSnapshotOrder` | src/auto_connect.rs:18-37 | the choice depends only on which nodes there are |
| `Nodes.ChosenTestsAreEligible` | src/automatic_tests.rs:28-59 | chosen nodes are available, untested and unknown, within the limit and without repeats if the snapshot has none |
| `Nodes.TestsGoToHighScores` | src/automatic_tests.rs:42-58 | the queue goes down in score and, for equal scores, up in ping with unknown pings last |
| `Nodes.LeftOutTestsRankLower` | src/automatic_tests.rs:42-58 | an eligible node is left out only when the limit is used up by nodes that rank no lower |
| `Nodes.TestQueueIgnoresSnapshotOrder` | src/automatic_tests.rs:42-58 | the chosen list does not depend on the order of the snapshot |
| `Nodes.ComparatorIsTotal` | src/api/mod.rs:335-372 | every comparator of the node list is a total order up to equal ids |
| `Nodes.ListingIsOrdered` | src/api/mod.rs:335-372 | measurements go in the asked direction, and missing ones come last in both directions |
| `Nodes.PagesCoverListing` | src/api/mod.rs:295-310 | the pages together contain every wanted node exactly once, in comparator order, whatever order each snapshot read has |

## Left out

- A worker left behind when a client timeout fires before the helper finishes a start: every request is taken to be answered, and `Fleet` states this.
- Runs after shutdown has begun, for the actor and the test pipeline: the dispatcher may stop with a job in hand and the last state is not rewritten.
- External commands, file ownership, procfs, nftables text and the routes they produce: only success, failure and what exists afterwards is modelled; a network is one resource, whatever is left of its interfaces and its namespace.
- Sockets, timers, HTTP clients and `copy_bidirectional`: streams are byte sequences and time is a counter; one arm of the actor reads the clock once.
- SQLite storage and migrations: stored test results are a map that may be unavailable.
- UTF-8, CSV, Base64, JSON and serde decoding: profile text is already decoded, and `NodeColumns.Column` records the outcome; BLAKE3, SHA-256 and UUIDs stay opaque, so that a node id is the key it is computed from.
- Password authentication, login sessions, CSRF, cookies and configuration parsing: shallow branches.
- `proc_route_table_covers_public_ipv4` and the route checks of the helper: they look for the spellings of a default route through `tun0` or of its two halves; more specific routes through other interfaces, which they do not read, decide where a packet goes, so that their answer is an outcome here.
- The YAML text of the Mihomo provider and the web user interface.
- In-place sorting of the candidate and node vectors: modelled on values, so that only contents and order are captured, not the update in place.
- `WorkerManagers.WorkerManager.Start`: one call with nobody interfering; interleavings are the subject of `NetdRuns`.
- `TestServices.TestService.EnqueueTestJob`: one call with nobody interfering; interleavings are the subject of `PipelineTheorems`.
