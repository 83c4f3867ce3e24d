# Coxswain control plane: a Dafny model

Coxswain is a Kubernetes Gateway API controller and proxy. Its control plane is built from small
concurrent components whose comments state precise guarantees. This project models those components
and proves the guarantees for all inputs, all runs and all interleavings; where a stated guarantee
does not hold of the code, it gives a failing input and the exact condition under which it holds.

`dafny verify dfyconfig.toml` checks the whole project.

## Files

| file | component |
|---|---|
| `Foundations.dfy` | options, string operations and order, stable sorting, facts about lists |
| `PublishIndex.dfy` | rebuild counter and per-Gateway publish stamps |
| `NodeRegistry.dfy`, `RegistryGate.dfy`, `RegistryHandle.dfy`, `RegistryWriters.dfy` | connected nodes, quorums, relay rosters, the two wake counters, and writers between an update and its bumps |
| `ConvergenceGate.dfy` | the publish/ack protocol as interleaved steps: rebuilds and their two ticks, the view cache, streams, acks, relays, reports, controller replacement |
| `GateInvariant.dfy`, `GateProofs.dfy`, `GateStreams.dfy`, `GateSoundness.dfy` | its invariant and the soundness of the gate |
| `GateRuns.dfy`, `GateWitness.dfy`, `RelayRuns.dfy`, `LeafRuns.dfy` | runs of the protocol that reach the limits of what it guarantees |
| `GateExact.dfy`, `AppliedWorlds.dfy`, `Sessions.dfy` | the exact limits: counted leaves, applied worlds, sessions |
| `NamespaceRelay.dfy` | the namespace relay: stamp reads, the relay's counter, its leaves, controller replacement, the dedicated gate |
| `Workqueue.dfy`, `WorkqueueProofs.dfy`, `WorkqueueOrder.dfy`, `WorkqueueHandle.dfy`, `WakeProtocol.dfy` | the rate-limiting work queue and its wake-up protocol |
| `HostPatterns.dfy`, `CertLists.dfy`, `CertStore.dfy`, `CertStoreBuilder.dfy`, `ClientCerts.dfy`, `ListenerHostnames.dfy` | SNI and listener lookup stores |
| `ScopedStatus.dfy` | the listener-status map with several writers |
| `ListenerSpecs.dfy`, `ListenerSpecMethods.dfy` | listener specs and advertised ports |
| `LogRelay.dfy` | the pod-log pump |
| `Health.dfy` | the health registry |
| `Spiffe.dfy` | SPIFFE identities |

## Conventions

- A protocol is a total step function over a state value; a run is any sequence of steps, so a theorem
  about runs covers every interleaving. A step whose guard fails changes nothing.
- A mutable object is a class. Its methods are proved to take the steps of a specification function,
  and the properties are lemmas about that function.
- A hash map is walked in an arbitrary order (`:|`), so contracts hold for every iteration order.
- A panic is modelled as a returned flag or `None`.
- Time, the clock, read chunks, write outcomes and read timeouts are parameters. Cell contents and PEM
  bytes are opaque values: equal values stand for equal content hashes.
- Locked regions, `ArcSwap` loads and stores, atomic increments, `watch` sends and `Notify` operations
  are atomic steps. `Notify` is an automaton with one permit and one registered waiter.
- In the publish/ack protocol, consecutive loads or stores of cells may be taken in one step or in many. A
  stream looks its view up as the code does: it reads the rebuild generation, checks the one cached view of
  its scope against it, on a miss captures the counter and reads the cells, and checks the cache again before
  it stores. Every connection is a session of its own. Fields called history (what was acknowledged in a
  session, where a reported row came from) are read by theorems only.
- A relay's ack upstream is not tied to the end of its apply, so theorems cover more runs than the code has;
  the runs that reach the limits apply a view before they ack it. A relay process starts only when no stream
  of its predecessor is open.
- Gateway views go through the view cache like shared ones, as `view_cache.rs:84-95` does; the comment at
  `view_cache.rs:62-63` says they bypass it.
- Sequence numbers, generations and counters are unbounded naturals; `u64` wrap-around is out of scope.
  The work queue's saturations (`u32` attempts, `Duration` product) are modelled.
- Strings are sequences of characters; slicing at byte offsets and at character offsets gives the same
  parts.

## Where the code does not meet its comments

- **Serving order.** `node_registry.rs:95-104` says `last_acked_seq >= s` proves that the node's applied
  snapshot contains every rebuild stamped up to `s`. That some acknowledged snapshot does is proved for every
  direct node (`GateSoundness.GateIsHonest`). The snapshot applied last may be older: a rebuild ticks its
  watch a first time (`proxy.rs:3568`) before its last cells are stored and its sequence is bumped, so a
  lookup that captured the older sequence can replace the cached view of one that captured the newer one. A
  direct node then trails by exactly one rebuild (`AppliedWorlds.DirectLagExact`, `ServedLagExact`), and only
  in the cells stored after that tick. Behind a relay nothing bounds the distance: a relay raises its counter
  before it ticks, and one apply may raise it by any number of sequences, so only serving in sequence order
  keeps the sentence true (`AppliedWorlds.RelayServingExact`). `view_cache.rs:70-75` calls the generation a
  cache key and not a correctness boundary; in these runs it decides what is served.
- **Leaves behind a relay.** A relay that was served older late cells hands them on under the newer sequence,
  because `advance_to` never regresses, so the gate can open over leaves that never held the late cells of
  the stamped rebuild. One rebuild is the exact distance (`GateExact.RelayLagExact`). A leaf that
  restarts after its report was taken still counts until the next report (`GateExact.SessionExact`).
- **A new controller.** `publish_index.rs:128-133` says a relay's leaves ack in the controller's sequence space.
  The counter of a new controller starts at zero, while a relay keeps the one it has reached (`relay.rs:95`
  and `apply.rs:313` for the shared pool, `relay.rs:221-226` and `relay.rs:336` for a namespace). Its leaves
  then satisfy every stamp of the new controller up to that sequence with the old controller's content.
  `GateExact.CarriedExact` is the exact condition for the shared gate, `NamespaceRelay.CarriedExact` for the
  dedicated gate.
- **Namespace relays.** `materialize.rs:190` loads the dedicated registry and `materialize.rs:222` reads
  each stamp afterwards, so a view can carry a stamp newer than its content, `relay.rs:334-336` advances the
  relay's counter to it, and the dedicated gate opens over older content. For views of the current controller
  `NamespaceRelay.NamespaceGateExact` is the exact condition.
- **Certificate order.** `tls.rs:384-385` says the order of `add_cert` calls does not matter. It does when
  two PEM pairs share a sort key, or one PEM pair was registered under two keys; the exact condition is
  `CertLists.CallOrderImmaterialIff`, and per SNI `CertStore.ServedIndependentOfOrderIff`.
- **Listener protocols.** The protocol rules of `services.rs:182-185` are commutative for the TLS
  protocols they list; on a port that Gateways open with other protocols the hash-map order decides.
  `ListenerSpecMethods.SpecsStableIff` is the exact condition.
- **SPIFFE parts.** `identity.rs:69-70` says `from_parts` always succeeds. It panics on an empty trust
  domain, and returns other parts than it was given when a slash moves a boundary; `Spiffe.FromPartsIff`.
- **Health.** `health.rs:264-267` says the registry is not ready until a subsystem has reported each of its
  checks. A degraded check outranks a pending one, so it is ready once one check is degraded, whatever has
  not reported (`Health.ReadyWithAPendingCheck`); `Health.ReadinessByChecks` is the exact condition.

## A condition on callers

- **Chained relays.** The wake rule of `apply_roster` is documented for relays that never chain, and is proved
  for them. A roster from a folded node would later hide a change of a bound quorum
  (`RegistryGate.ChainedRelayHidesAQuorumChange`); `RegistryGate.WakeRuleExactIff` gives the exact condition
  for one reporter.

## Model

| member | source | states |
|---|---|---|
| `PublishIndex.SequencesIncrease` | crates/coxswain-core/src/publish_index.rs:87-140 | over any history of rebuilds and `advance_to` calls, rebuild sequences strictly increase, stay within the counter, and the counter passes every advance target |
| `PublishIndex.StampsMarkRunStarts` | crates/coxswain-core/src/publish_index.rs:87-108 | a key has a stamp exactly when the last rebuild published it; the stamp carries that content and the sequence of the first rebuild of the maximal unbroken run publishing it |
| `PublishIndex.GatewayPublishIndex.StampRebuild` | crates/coxswain-core/src/publish_index.rs:87-108 | returns the bumped counter and leaves exactly the stamps of a rebuild of the given publications, last duplicate winning |
| `PublishIndex.GatewayPublishIndex.AdvanceCounterTo` | crates/coxswain-core/src/publish_index.rs:138-140 | the counter never regresses, reaches the target, and no stamp changes |
| `NodeRegistry.NodesBound` | crates/coxswain-core/src/node_registry.rs:446-463 | the loop answers yes exactly when some row is in scope and every row in scope covers the required ports: it fails closed |
| `NodeRegistry.NodesAcked` | crates/coxswain-core/src/node_registry.rs:468-477 | the same quorum over acked sequences, failing closed on an empty scope and on a node that never acked |
| `RegistryGate.LastEntry` | crates/coxswain-core/src/node_registry.rs:755-780 | the entry of a report that wins for an id: the last one naming it, none if no entry does |
| `RegistryGate.FoldAllRow` | crates/coxswain-core/src/node_registry.rs:755-780 | the fold over a report seen at one row: direct and unnamed rows stay, any other becomes its last entry under the reporter |
| `RegistryGate.SubtreeOwnership` | crates/coxswain-core/src/node_registry.rs:737-787 | after a report from p the rows under p are exactly the reported ids not held by a direct row, each with its last entry; direct rows change only in p's relay mark; other relays lose only named ids |
| `RegistryGate.QueriesReadOnlyTheGateView` | crates/coxswain-core/src/node_registry.rs:239-435 | registries that differ only in health and timestamps answer every bound and acked quorum, leaf count, relay readiness, drain count, sync and version query alike, for all arguments |
| `RegistryGate.WakesExactlyOnGateChange` | crates/coxswain-core/src/node_registry.rs:737-823 | for a reporter the rule is exact for, a report bumps the gate counter exactly when it changes the gate view of the whole registry |
| `RegistryGate.MisjudgedReport` | crates/coxswain-core/src/node_registry.rs:737-823 | outside the condition there is a report whose wake and gate change disagree |
| `RegistryGate.WakeRuleExactIff` | crates/coxswain-core/src/node_registry.rs:737-823 | the wake rule agrees with the gate view for every report of p if and only if the condition on p holds |
| `RegistryGate.RunKeepsInvariant` | crates/coxswain-core/src/node_registry.rs:566-935 | in every run without chained relays rows stay keyed by their node id and no folded row is a relay |
| `RegistryGate.QuietStep` | crates/coxswain-core/src/node_registry.rs:566-935 | a step that leaves the gate counter alone changes no bound quorum for any port set, and an ack quorum only if it is `record_ack` or `advance_acked_seq`; a step that changes any row advances the roster counter |
| `RegistryGate.ChainedRelayHidesAQuorumChange` | crates/coxswain-core/src/node_registry.rs:737-787 | a run with a chained relay after which a report turns a bound quorum true with the gate counter unmoved |
| `RegistryWriters.WritersRefine` | crates/coxswain-core/src/node_registry.rs:529-935 | any interleaving of writers' locked updates, gate bumps and roster bumps is, with the owed bumps paid, the run of the same operations one at a time |
| `RegistryWriters.NothingMissedWhenPaid` | crates/coxswain-core/src/node_registry.rs:529-935 | over any interleaving from any state, a consumer that finds the gate counter unmoved, with no writer between its update and its gate bump, has missed no bound-quorum change, and no ack-quorum change if no ack happened; an unmoved roster counter with no roster bump owed means no row changed |
| `RegistryWriters.OwedHidesAChange` | crates/coxswain-core/src/node_registry.rs:566-583 | for every number of owed gate bumps a run in which a bound quorum has changed and the counter has not moved |
| `RegistryWriters.PaidExact` | crates/coxswain-core/src/node_registry.rs:529-935 | an unmoved gate counter proves that no bound quorum changed, in every run, if and only if no gate bump is owed |
| `RegistryHandle.SortedProjectionsCompare` | crates/coxswain-core/src/node_registry.rs:784-823 | comparing the sorted row vectors of two registries is comparing the subtrees they project |
| `RegistryHandle.GateProjection` | crates/coxswain-core/src/node_registry.rs:808-823 | collecting in map order and sorting yields the subtree's rows in strict id order |
| `RegistryHandle.NodeRegistryHandle.Connect` | crates/coxswain-core/src/node_registry.rs:566-583 | takes the registry's connect step, counters included |
| `RegistryHandle.NodeRegistryHandle.RecordAck` | crates/coxswain-core/src/node_registry.rs:593-610 | takes the ack step: the acked sequence never regresses and the gate is not woken |
| `RegistryHandle.NodeRegistryHandle.AdvanceAckedSeq` | crates/coxswain-core/src/node_registry.rs:620-633 | takes the sequence-advance step |
| `RegistryHandle.NodeRegistryHandle.RecordTarget` | crates/coxswain-core/src/node_registry.rs:641-655 | takes the target step |
| `RegistryHandle.NodeRegistryHandle.RecordBoundPorts` | crates/coxswain-core/src/node_registry.rs:662-674 | takes the bound-ports step, waking the gate only on a change |
| `RegistryHandle.NodeRegistryHandle.RecordHealth` | crates/coxswain-core/src/node_registry.rs:690-701 | takes the health step, never waking the gate |
| `RegistryHandle.NodeRegistryHandle.ApplyRoster` | crates/coxswain-core/src/node_registry.rs:737-787 | marking, projecting, retaining, folding and comparing in place is the roster step, whose wake rule the lemmas above judge |
| `RegistryHandle.NodeRegistryHandle.EvictChildren` | crates/coxswain-core/src/node_registry.rs:831-843 | afterwards no row has that parent, every other row is untouched, and both counters move exactly when a row was removed |
| `RegistryHandle.NodeRegistryHandle.Disconnect` | crates/coxswain-core/src/node_registry.rs:929-935 | takes the disconnect step |
| `RegistryHandle.NodeRegistryHandle.AllSharedNodesBound` | crates/coxswain-core/src/node_registry.rs:881-883 | the query of the current rows |
| `RegistryHandle.NodeRegistryHandle.AllSharedNodesAcked` | crates/coxswain-core/src/node_registry.rs:903-905 | the query of the current rows |
| `RegistryHandle.NodeRegistryHandle.GatewayNodeBound` | crates/coxswain-core/src/node_registry.rs:888-898 | the query of the current rows |
| `RegistryHandle.NodeRegistryHandle.GatewayNodeAcked` | crates/coxswain-core/src/node_registry.rs:910-915 | the query of the current rows |
| `GateStreams.ServeMarked` | crates/coxswain-discovery/src/server/stream.rs:841-855 | ending a lookup with a view at least as new as the generation it started from keeps the stream within one rebuild of everything its node is known to hold, whether the view is pushed, dropped behind one in flight, or advances the node |
| `GateStreams.RootMarks` | crates/coxswain-discovery/src/server/view_cache.rs:149-178 | every lookup step of every stream, and every store into the one-slot cache with its re-check, keeps all cached views and all streams of the controller within that bound |
| `GateSoundness.StepOk` | crates/coxswain-core/src/publish_index.rs:7-16 | every protocol step keeps the invariant: cells, cached views, lookups, pushed views, relays, reports and recorded ack sequences are all backed by rebuilds at least as new as they claim |
| `GateSoundness.GateIsHonest` | crates/coxswain-core/src/publish_index.rs:7-16 | gate soundness, assuming nothing of the run: at every point of every interleaving, an open gate means that every direct node it counts acknowledged in its current session a full world no older than the stamp; that every folded leaf did so in the session it was reported in, its late cells one rebuild older at most, unless its relay carried that sequence over from an earlier controller; and that the stamped content has been published unbroken since the stamp |
| `Sessions.ConnectForgets` | crates/coxswain-discovery/src/server/stream.rs:414-449 | after any run a node that connects, to the controller or to a relay, is in a session in which nothing was acknowledged |
| `GateExact.LateCellsMayTrail` | crates/coxswain-discovery/src/apply.rs:293-316 | for every rebuild a run that opens its gate over a leaf behind a relay that never held its late cells |
| `GateExact.RelayLagExact` | crates/coxswain-discovery/src/server/view_cache.rs:149-178 | a leaf counted behind a relay has, in every run, acknowledged the stamped rebuild up to a lag of its late cells if and only if the lag is at least one |
| `GateExact.CarriedSequenceOpens` | crates/coxswain-discovery/src/apply.rs:313 | for every sequence c a relay has reached and every n up to c, a run in which a new controller's gate at stamp n opens over a leaf that holds none of its content |
| `GateExact.CarriedExact` | crates/coxswain-core/src/publish_index.rs:126-140 | a leaf counted at stamp n behind a relay that carried c over from earlier controllers is honest in every run if and only if n > c |
| `GateExact.RestartOpens` | crates/coxswain-discovery/src/server/stream.rs:1088-1152 | for every n a run in which the gate counts a leaf that restarted after its report and holds nothing |
| `GateExact.SessionExact` | crates/coxswain-discovery/src/server/stream.rs:1088-1152 | counted leaves hold in their current session what the gate claims, in every run, if and only if the report is of that session |
| `AppliedWorlds.AppliedWorldsTrailByOne` | crates/coxswain-core/src/node_registry.rs:95-104 | at every point of every run the world a direct node applied last is as new as its `last_acked_seq` but for late cells one rebuild older, and what it is being served is at most one sequence behind |
| `AppliedWorlds.OneBehind` | crates/coxswain-discovery/src/server/view_cache.rs:149-178 | for every q a run in which a node credited with q is served sequence q - 1, and one in which it has applied it |
| `AppliedWorlds.DirectLagExact` | crates/coxswain-core/src/node_registry.rs:95-104 | the latest world of a direct node stays within a lag of its credit in every run if and only if the lag is at least one |
| `AppliedWorlds.ServedLagExact` | crates/coxswain-discovery/src/server/stream.rs:556-583 | what a direct node is served stays within a lag of its credit in every run if and only if the lag is at least one |
| `AppliedWorlds.OutOfOrderIsNot` | crates/coxswain-discovery/src/client.rs:1023-1060 | for every p < q a run in which a leaf of a relay is credited with q and served p, after which its latest world is older than its credit |
| `AppliedWorlds.RelayServingExact` | crates/coxswain-core/src/node_registry.rs:95-104 | a relay's leaf credited with q that acks a view of sequence p holds, in every run, a world as new as its credit if and only if p >= q |
| `NamespaceRelay.WithinCaptureIsHonest` | crates/coxswain-discovery/src/materialize.rs:189-236 | in every interleaving, replaced controllers and restarted relays included, an open dedicated gate over a leaf of a namespace relay is backed by something the leaf was served at that sequence; what it was served above the sequence its relay carried over came from the current controller; and of that, what came from a view captured at or past the stamp is content of that rebuild or later |
| `NamespaceRelay.PastCapture` | crates/coxswain-discovery/src/relay.rs:322-340 | for every capture c and every later stamp n a run that opens that gate over older content served from the current controller's view captured at c |
| `NamespaceRelay.NamespaceGateExact` | crates/coxswain-discovery/src/relay.rs:322-340 | what a leaf was served from a view of the current controller captured at c is honest for the open gate (`gateway_node_acked`) of its own stamp n, in every run, if and only if n is at most c (or 1) |
| `NamespaceRelay.CarriedSequenceOpens` | crates/coxswain-discovery/src/relay.rs:221-226 | for every sequence k a namespace relay has reached and every n up to k, a run in which a new controller's dedicated gate at stamp n opens over the old controller's content, although the view it came from was captured at or past n |
| `NamespaceRelay.CarriedExact` | crates/coxswain-discovery/src/client.rs:788-797 | over a relay that carries k over from earlier controllers, what a leaf was served from views captured at or past the stamp is honest for the open dedicated gate at stamp n, in every run, if and only if n > k |
| `WorkqueueProofs.RunKeepsInv` | crates/coxswain-core/src/workqueue.rs:117-154 | in every reachable state ready is duplicate-free and equals queued, queued and processing are disjoint, dirty is within processing, delayed entries are in pop order |
| `WorkqueueProofs.DrainsExactlyTheDue` | crates/coxswain-core/src/workqueue.rs:158-175 | draining enqueues exactly the entries due by now, in deadline then insertion order, and leaves exactly the later ones |
| `WorkqueueProofs.StepConserves` | crates/coxswain-core/src/workqueue.rs:139-331 | one operation hands out, holds and accepts each key in exact balance while the queue is open, and drops but never adds afterwards; a de-duplicated enqueue is not accepted |
| `WorkqueueProofs.Conservation` | crates/coxswain-core/src/workqueue.rs:139-331 | over every run until shutdown, hand-outs of a key plus work still held for it equal its accepted enqueues; they never exceed them afterwards |
| `WorkqueueOrder.FirstInFirstOut` | crates/coxswain-core/src/workqueue.rs:117-154 | over every run, the keys handed out followed by those still ready are exactly the keys that became ready, in that order |
| `WorkqueueProofs.DoneBetweenHandouts` | crates/coxswain-core/src/workqueue.rs:278-331 | two hand-outs of a key always have a `done` of it between them |
| `WorkqueueProofs.NothingLost` | crates/coxswain-core/src/workqueue.rs:139-154 | before shutdown a key enqueued and not handed out since is in queued or dirty |
| `WorkqueueProofs.NeverEarly` | crates/coxswain-core/src/workqueue.rs:232-256 | hand-outs of a key and work still held for it are its accepted immediate adds plus its accepted drains, and up to any time t the accepted drains number no more than the delayed adds whose whole delay has elapsed by t |
| `WorkqueueProofs.BackoffSinceForget` | crates/coxswain-core/src/workqueue.rs:262-271 | the n-th rate-limited add since `forget` waits min(base * 2^min(n,20), max), n from 0; neither saturation shows |
| `WorkqueueProofs.BackoffRamp` | crates/coxswain-core/src/workqueue.rs:72-76 | delays never shrink with attempts and double until the cap or the twentieth |
| `WorkqueueHandle.RateLimitingWorkqueue.EnqueueLocked` | crates/coxswain-core/src/workqueue.rs:139-154 | takes the enqueue step and reports a wake exactly when the key became ready |
| `WorkqueueHandle.RateLimitingWorkqueue.DrainDueLocked` | crates/coxswain-core/src/workqueue.rs:158-170 | the popping loop drains as specified and leaves exactly the later entries |
| `WorkqueueHandle.RateLimitingWorkqueue.Add` | crates/coxswain-core/src/workqueue.rs:222-227 | takes the add step; notifies exactly when the key became ready |
| `WorkqueueHandle.RateLimitingWorkqueue.AddAfter` | crates/coxswain-core/src/workqueue.rs:232-256 | takes the delayed-add step; zero delay is an add; notifies whenever a delayed add is accepted |
| `WorkqueueHandle.RateLimitingWorkqueue.AddRateLimited` | crates/coxswain-core/src/workqueue.rs:262-271 | counts the attempt and schedules after the backoff of the attempts before it |
| `WorkqueueHandle.RateLimitingWorkqueue.TakeLocked` | crates/coxswain-core/src/workqueue.rs:289-300 | one locked pass of `get`: a key, the end, or the deadline to sleep to |
| `WorkqueueHandle.RateLimitingWorkqueue.Done` | crates/coxswain-core/src/workqueue.rs:318-331 | takes the done step, re-enqueueing a dirty key once |
| `WorkqueueHandle.RateLimitingWorkqueue.ForgetKey` | crates/coxswain-core/src/workqueue.rs:338-340 | resets the attempt counter and nothing else |
| `WorkqueueHandle.RateLimitingWorkqueue.Close` | crates/coxswain-core/src/workqueue.rs:356-361 | sets shutdown and nothing else |
| `WakeProtocol.ParkedMeansNothingToDo` | crates/coxswain-core/src/workqueue.rs:278-331 | no lost wake-up and no oversleep: a consumer parked with no notification on its way has an empty open queue and sleeps to exactly the least delayed deadline |
| `WakeProtocol.AvailableWorkIsPickedUp` | crates/coxswain-core/src/workqueue.rs:278-361 | from every reachable state with work to return, at most four steps of the consumer and of owed notifications make `get` return |
| `HostPatterns.OnlyTheParentMatches` | crates/coxswain-core/src/tls.rs:310-317 | a wildcard matches a name if and only if its suffix is the text after the name's first dot and a non-empty label precedes it, so at most one suffix matches |
| `WildcardLists.ScanIsLookup` | crates/coxswain-core/src/tls.rs:149-155 | scanning a list of the map's entries, in any order, is looking the parent domain up in the map |
| `WildcardLists.SortedEntries` | crates/coxswain-core/src/tls.rs:421-431 | collecting a hash map in any order and sorting lists each entry once, longest suffix first |
| `CertLists.CertOrder` | crates/coxswain-core/src/tls.rs:321-342 | the sort comparator is a total preorder |
| `CertLists.DedupKeepsFirsts` | crates/coxswain-core/src/tls.rs:344-357 | deduplication keeps exactly the first occurrence of each PEM pair, in order |
| `CertLists.DedupCertVec` | crates/coxswain-core/src/tls.rs:347-357 | the removing loop computes that deduplication |
| `CertLists.CanonForm` | crates/coxswain-core/src/tls.rs:332-357 | a pattern's list is a sorted permutation of the deduplicated registrations, one certificate for each PEM pair |
| `CertLists.CallOrderImmaterialIff` | crates/coxswain-core/src/tls.rs:384-385 | no reordering of a pattern's registrations changes its PEM sequence if and only if, of two PEM pairs, the copies of one all sort strictly before those of the other |
| `CertLists.KeysThatIdentify` | crates/coxswain-core/src/tls.rs:332-342 | it is so when certificates share a sort key exactly when they share their PEM pair |
| `CertLists.CallOrderMatters` | crates/coxswain-core/src/tls.rs:384-385 | two certificates with one sort key are served in call order |
| `CertStore.LookupFollowsTheRule` | crates/coxswain-core/src/tls.rs:141-197 | for every registration list, every store `build` may return and every SNI, the result is the exact bucket, else the parent's wildcard bucket, else the default; `has_specific_cert` holds exactly when it is not the default |
| `CertStore.BucketPermutes` | crates/coxswain-core/src/tls.rs:386-402 | reordering calls permutes each bucket |
| `CertStore.ServedIndependentOfOrderIff` | crates/coxswain-core/src/tls.rs:384-441 | what is served for an SNI is independent of call order if and only if its serving bucket is unambiguous |
| `CertStore.CertCount` | crates/coxswain-core/src/tls.rs:199-204 | the count is the number of distinct (pattern, PEM pair) combinations registered |
| `CertStoreBuilder.TlsStoreBuilder.AddCert` | crates/coxswain-core/src/tls.rs:386-402 | appends the classified registration, keeping the maps equal to the buckets of all calls |
| `CertStoreBuilder.TlsStoreBuilder.Build` | crates/coxswain-core/src/tls.rs:409-441 | whatever order the maps are walked in, the store is one of those calls |
| `ClientCerts.LastForIsLast` | crates/coxswain-core/src/tls.rs:784-810 | the configuration of a port and pattern is that of its last registration |
| `ClientCerts.LookupFollowsTheRule` | crates/coxswain-core/src/tls.rs:664-705 | lookup is the last registration for the exact name, else the parent's wildcard, else the default, reading that port's registrations only |
| `ClientCerts.ClientCertStoreBuilder.AddClientCert` | crates/coxswain-core/src/tls.rs:784-810 | appends the classified registration; last writer wins |
| `ClientCerts.ClientCertStoreBuilder.Build` | crates/coxswain-core/src/tls.rs:813-832 | every port's maps compile to a store of those calls |
| `ListenerHostnames.ResolveIsClass` | crates/coxswain-core/src/tls.rs:935-964 | every snapshot `build` may return resolves a host to its exact listener, else its parent's wildcard, else match-all; `resolve_sni(Some(x))` is `resolve(x)` |
| `ListenerHostnames.ScanFollowsTheRule` | crates/coxswain-core/src/tls.rs:855-880 | because an exact name outranks wildcards in the sort, the first match is the rule's |
| `ListenerHostnames.ClassIgnoresOrder` | crates/coxswain-core/src/tls.rs:994-1024 | snapshots of the same listeners, in any order and multiplicity, resolve and judge every request alike |
| `ListenerHostnames.MisdirectedIff` | crates/coxswain-proxy/src/policy/misdirected.rs:22-49 | a request gets 421 if and only if it is HTTPS, the port has HTTPS listeners, and SNI and Host fall in different listener classes; never when they are the same name |
| `ListenerHostnames.ListenerHostnamesBuilder.AddListener` | crates/coxswain-core/src/tls.rs:994-1004 | records the listener, ignoring non-HTTPS ones |
| `ListenerHostnames.ListenerHostnamesBuilder.Build` | crates/coxswain-core/src/tls.rs:1007-1024 | the result is a snapshot of those listeners, most specific first |
| `ScopedStatus.GatewayListenerStatusHandle.UpdateScoped` | crates/coxswain-core/src/listener_status.rs:814-829 | owned keys read the updates, all others are unchanged |
| `ScopedStatus.RunKeepsInv` | crates/coxswain-core/src/listener_status.rs:814-829 | in every interleaving of load, compare-and-swap, retry and notify steps the map and counter stay as the next row says |
| `ScopedStatus.OwnersSeeTheirLatestUpdate` | crates/coxswain-core/src/listener_status.rs:798-829 | with disjoint ownership every key shows exactly its owner's latest completed update, absence included, and the generation has advanced once per completed update when none is about to notify |
| `ScopedStatus.WritersCommute` | crates/coxswain-core/src/listener_status.rs:814-829 | calls by different writers commute |
| `ScopedStatus.StrayUpdate` | crates/coxswain-core/src/listener_status.rs:814-829 | an update outside its scope is harmless to a key if and only if it repeats the key's status |
| `ListenerSpecs.FoldIsCombined` | crates/coxswain-bin/src/services.rs:188-230 | the step-by-step upgrade of a port is, in closed form, the first protocol, or hybrid when TLS comes first and both TLS kinds occur, with the first PROXY configuration |
| `ListenerSpecs.PortStableIff` | crates/coxswain-bin/src/services.rs:181-230 | a port's state is the same for every walk of the Gateways if and only if they open it with one protocol or with TLS ones only and agree on the PROXY configuration |
| `ListenerSpecs.PlainProtocolsDependOnTheWalk` | crates/coxswain-bin/src/services.rs:181-230 | two Gateways bringing HTTP and TCP to one port: the walk decides |
| `ListenerSpecMethods.SpecSetHas` | crates/coxswain-bin/src/services.rs:231-239 | the result holds exactly one spec for each bound port that is not excluded |
| `ListenerSpecMethods.DeriveGatewaySpecs` | crates/coxswain-bin/src/services.rs:176-239 | exactly one spec for each port that has a listener and is not excluded, and for some walk of the hash map the set is that walk's accumulation |
| `ListenerSpecMethods.SpecsStableIff` | crates/coxswain-bin/src/services.rs:176-239 | the whole spec set is independent of hash-map order if and only if the Gateways agree on every port that is not excluded |
| `ListenerSpecMethods.UniformPortsAgree` | crates/coxswain-bin/src/services.rs:181-185 | one protocol, or a mix of TLS ones, and one PROXY configuration among a port's listeners suffices |
| `ListenerSpecMethods.DeriveAdvertisedPorts` | crates/coxswain-bin/src/services.rs:252-262 | the keys are exactly the bind ports, each value the spec port of the last listener bound there in some walk; the map inverts `bind_port` if and only if listeners sharing a bind port share a spec port |
| `ListenerSpecMethods.SpecsAreAdvertised` | crates/coxswain-bin/src/services.rs:241-262 | every spec's port is advertised |
| `LogRelay.Pump` | crates/coxswain-admin/src/logs.rs:170-194 | the pump stops at the first end, error or failed write, and the non-empty lines the client received equal those read up to there |
| `LogRelay.EmitKeepsLines` | crates/coxswain-admin/src/logs.rs:170-194 | for every sequence of reads and timeouts the probes never split, join, add or drop a line |
| `Health.LastWorstUnique` | crates/coxswain-core/src/health.rs:343-362 | the check a snapshot takes its state from is determined: the last of the worst |
| `Health.CacheAgreement` | crates/coxswain-core/src/health.rs:153-373 | in every reachable state the cached severities are the maxima, readiness equals readiness of every state of any snapshot, and the counter has moved once per registration or genuine transition |
| `Health.WokenIffSnapshotChanges` | crates/coxswain-core/src/health.rs:153-180 | a call wakes subscribers if and only if it changes what a snapshot shows |
| `Health.ReadinessByChecks` | crates/coxswain-core/src/health.rs:317-322 | ready means no check failed and, per subsystem, nothing pending or something degraded |
| `Health.ReadyWithAPendingCheck` | crates/coxswain-core/src/health.rs:261-306 | a subsystem with two checks, one degraded and the other never reported, leaves the registry ready |
| `Health.HealthRegistry.Register` | crates/coxswain-core/src/health.rs:277-306 | takes the registration step; refuses a duplicate name |
| `Health.HealthRegistry.Set` | crates/coxswain-core/src/health.rs:153-180 | takes the transition step; refuses an unknown check |
| `Health.HealthRegistry.Snapshot` | crates/coxswain-core/src/health.rs:343-362 | returns a snapshot of the current state |
| `Health.AggregateSeverity` | crates/coxswain-core/src/health.rs:153-180 | the fold returns the maximum severity |
| `Health.AggregateState` | crates/coxswain-core/src/health.rs:343-362 | the fold returns the last worst state, ready when there is none |
| `Spiffe.ParseIff` | crates/coxswain-core/src/identity.rs:54-168 | `parse` succeeds if and only if the text is `spiffe://td/ns/ns/sa/sa` with td and ns non-empty and slash-free and sa non-empty; the getters then give valid parts and `from_parts` of them rebuilds the identity |
| `Spiffe.ComposedParses` | crates/coxswain-core/src/identity.rs:125-168 | a URI of valid parts parses and the stored offsets cut out exactly those parts |
| `Spiffe.FromPartsIff` | crates/coxswain-core/src/identity.rs:68-79 | `from_parts` returns an identity with the given parts if and only if the parts are valid |
| `Spiffe.FromPartsCanPanic` | crates/coxswain-core/src/identity.rs:68-79 | an empty trust domain makes it panic |
| `Spiffe.EmptyTrustDomainIff` | crates/coxswain-core/src/identity.rs:125-137 | that error is returned if and only if a slash follows the scheme |

## Left out

- gRPC, TLS, Kubernetes and Pingora plumbing, the CLI, metrics, the UI and other tooling: effects over libraries.
- The routing tables and the discovery delta encoding: a served view is its cell contents; version hashes stand for content identity.
- The fields a Nack records and ack latencies: they carry no sequence. The resync a Nack causes is modelled.
- The dropping of report entries outside the reporting relay's scope: every entry is folded, so theorems cover more runs.
- The time a namespace relay's report is under way: it is taken and folded in one step. Reports of shared relays are queued.
- Several relays of one namespace that share a cached view: one relay stream, with its lookups in sequence, is modelled.
- The race between an old stream's late disconnect and a reconnect under one node id: it lies in the stream lifecycle.
- Wrap-around of 64-bit counters, and a delay so large that it overflows the clock.
- Memory ordering and the internals of `ArcSwap`, `watch`, `Notify` and `BinaryHeap`: atomic steps with their stated contracts.
- Several concurrent consumers of the work queue: the source allows one.
- The flag `drain_due` returns: its caller ignores it.
- Structural equality of the lookup stores: equal-length suffixes keep hash-map order, so lookups are compared instead.
- PEM parsing, certificate metadata extraction, log messages and human-readable reasons.
- The lower-case precondition on SNI and Host: lookups are modelled for every string.
- Bytes of a chunk whose write failed half way: a failed write delivers nothing.
