# Relay verification

A Dafny 4.11 model of the relay's version 2 control and data plane (`relay/internal/relay`), with
proofs of what its comments promise: "one-shot", "linearizes", "cannot resurrect", "never evicts".
`dafny verify dfyconfig.toml` checks the whole project.

Each lock-protected object is a class whose methods follow the source's branches and loops. Every
method is proved equal to a step of a state machine on values, and what the source promises is
proved about all runs of that machine.

| part | files |
|---|---|
| shared helpers | `options.dfy`, `finite_sets.dfy`, `unix_time.dfy`, `cutoffs.dfy` |
| expiry heap, correlation registries | `expiry_index.dfy`, `correlation_registry.dfy` |
| control handshake Resolve, Offer, Answer, Reserve | `hub_protocol.dfy`, `hub_invariants.dfy`, `hub_traces.dfy`, `hub_lifetimes.dfy`, `hub.dfy` |
| relay-data registry | `relay_data_table.dfy`, `relay_data_accounting.dfy`, `relay_data_invariants.dfy`, `relay_data_runs.dfy`, `relay_data_registry.dfy` |
| registry with writer pumps | `relay_data_pumps.dfy`, `relay_data_delivery.dfy`, `relay_data_pairing.dfy`, `relay_data_guarantees.dfy`, `relay_data_detachment.dfy`, `relay_data_example.dfy`, `relay_data_conn.dfy` |
| replay nonces | `nonce_cache.dfy` |
| presence and discovery | `leases.dfy`, `discovery_publish.dfy`, `fanout_limiter.dfy` |
| enrollment, credentials, lifecycle events | `enrollment.dfy`, `enrollment_generations.dfy`, `authentication.dfy`, `device_events.dfy`, `reconcile_sweep.dfy`, `relay_server.dfy` |

Conventions. Identities are natural numbers and 0 is the empty string. Times are integers in
nanoseconds and arrive as arguments; in a run they never decrease. A mutex region is one step. Only
PairReady queueing, socket writes, write quiescence and terminal marking are split into smaller steps.
Store failures, full queues, socket write results and map iteration orders are arbitrary. Connection
and endpoint identities are fresh, so identity of a pointer is equality of an id. An endpoint sends
one connect frame, and the two roles of a reservation belong to different devices. Tokens of the
discovery limiter are reals. Signature checks are given as verified or not.

Two promises hold only under a condition, which is stated and proved exact:

- Enrollment generations of a device rise, and lifecycle events spare the sockets of the current
  generation, if and only if no re-enrollment finds the device forgotten by the store with a
  candidate that is not above its latest generation (`GenerationsRiseExactly`, `EventsSpareExactly`).
  The comment on `handleKickedEvent` promises it always. A credential lifetime that leaves two
  microseconds per enrollment rules the exception out (`MarginPreventsFalls`);
  `StaleKickReachesCurrent` shows it.
- A discovery hint is the one due for what readers see if and only if an online entry the publisher
  read is still seen when it writes, neither dropped nor expired (`HintsAreExact`). `HintCanBeMissed`
  shows both ways it fails.

## Model

| member | source | states |
|---|---|---|
| `ExpiryIndexes.RootIsMinimum` | relay/internal/relay/hub.go:31-57 | A heap-ordered array has an entry of least expiry at its root. |
| `ExpiryIndexes.ExpiryIndex.Add` | relay/internal/relay/hub.go:66-77 | Adds a key exactly when it is new; the key-to-expiry map the index stands for gains that key only, and heap order and back-pointers hold again. |
| `ExpiryIndexes.ExpiryIndex.Remove` | relay/internal/relay/hub.go:79-87 | Removes the key from the middle of the heap by swap, down or up; the map loses exactly that key. |
| `ExpiryIndexes.ExpiryIndex.Rekey` | relay/internal/relay/cache.go:216-219 | Moving the expiry of a key in place keeps the heap exact (heap.Fix). |
| `ExpiryIndexes.ExpiryIndex.OldestExpired` | relay/internal/relay/hub.go:89-95 | Returns a key exactly when some key has expired, and then one whose expiry no other key undercuts. |
| `ExpiryIndexes.ExpiryIndex.Reset` | relay/internal/relay/hub.go:97-100 | Leaves an empty, valid index. |
| `CorrelationRegistries.CorrelationRegistry.Add` | relay/internal/relay/hub.go:340-402 | An attempt is admitted if and only if its id is not empty and free, it is live and, after dropping expired entries only, the global cap and both connection caps have room; the other entries that disappear had expired. |
| `CorrelationRegistries.CorrelationRegistry.AddGate` | relay/internal/relay/reservation.go:163-205 | The same for a gate, which must also name both devices and both connections, and to which an expired entry of the same key gives way. |
| `CorrelationRegistries.CorrelationRegistry.ReleaseExpiredSlot` | relay/internal/relay/reservation.go:210-227 | One expired entry of a full connection is freed; failure means all its slots are held by live entries. |
| `CorrelationRegistries.CorrelationRegistry.RecoverGlobalSlot` | relay/internal/relay/reservation.go:173-180 | A full registry yields a slot exactly when some entry has expired. |
| `CorrelationRegistries.CorrelationRegistry.Prune` | relay/internal/relay/reservation.go:141-152 | Drops expired entries only, at most the limit, and stops early only when every entry left is live. |
| `CorrelationRegistries.CorrelationRegistry.Take` | relay/internal/relay/reservation.go:229-238 | Consumes the key whatever its age and hands out its entry only while live. |
| `CorrelationRegistries.CorrelationRegistry.ContainsLive` | relay/internal/relay/reservation.go:154-161 | True exactly for a live entry; an expired one is removed. |
| `CorrelationRegistries.CorrelationRegistry.RemoveConnection` | relay/internal/relay/hub.go:421-433 | Removes exactly the entries that name the connection, using the reverse index. |
| `CorrelationRegistries.CorrelationRegistry.Remove` | relay/internal/relay/hub.go:312-325 | Main map, reverse index and heap lose the key together. |
| `CorrelationRegistries.UnlinkedExact` | relay/internal/relay/hub.go:312-325 | Removing one entry keeps the reverse index exact with no empty bucket. |
| `Hubs.Hub.StageBegin` | relay/internal/relay/hub.go:694-710 | Reserves a pending admission unless the hub is closed or full. |
| `Hubs.Hub.StageCommit` | relay/internal/relay/hub.go:738-757 | Publishes a staged socket only if it is still staged, its lease was taken and the replaced socket is unchanged; the replaced connection loses all its correlations. |
| `Hubs.Hub.Activate` | relay/internal/relay/hub.go:797-812 | Only the registered socket of an open hub becomes routable. |
| `Hubs.Hub.DisconnectConnection` | relay/internal/relay/hub.go:837-863 | Disconnects the named connection only, together with its ticket and correlations. |
| `Hubs.Hub.DisconnectDeviceBeforeGeneration` | relay/internal/relay/hub.go:916-934 | Drops the registered and the pending socket of the device that are older than the cutoff, with their correlations. |
| `Hubs.Hub.Remove` | relay/internal/relay/hub.go:865-878 | A removed socket leaves no ticket and no correlation; a newer socket of the device stays. |
| `Hubs.Hub.Close` | relay/internal/relay/hub.go:576-596 | Empties the peer table and every correlation. |
| `Hubs.Hub.RememberCoordinationTarget` | relay/internal/relay/hub.go:479-489 | A READY Resolve leaves one ticket for its connection. |
| `Hubs.Hub.ConsumeCoordinationTarget` | relay/internal/relay/hub.go:491-505 | The ticket is gone after one Offer; it yields its target only while live and for another device. |
| `Hubs.Hub.CommitOffer` | relay/internal/relay/control_v2.go:451-533 | Forwards the Offer if and only if both sockets are current and open, the target connection is the one proven READY, the attempt id is free, both registries have room and the queue takes the frame; otherwise only expired entries are gone. |
| `Hubs.Hub.ReturnFrame` | relay/internal/relay/control_v2.go:538-575 | An Answer or ProtocolError spends the route once and goes to the exact initiator connection. |
| `Hubs.Hub.ConsumeReservationGate` | relay/internal/relay/hub.go:454-473 | A Reserve request spends its gate first; it is granted only for the exact target connection of the Offer. |
| `Hubs.Hub.Prune` | relay/internal/relay/hub.go:1083-1097 | The sweep drops expired correlations only, at most the limit from each registry, and fewer than the limit only when every correlation left is live. |
| `HubInvariants.HubStep` | relay/internal/relay/hub.go:741-757 | Every hub step keeps each attempt and each gate naming exactly the registered connections of its initiator and target. |
| `HubInvariants.ForgottenRegistered` | relay/internal/relay/hub.go:916-934 | Without the entries naming a connection, losing or replacing its socket leaves no stale correlation. |
| `HubTraces.ReachableStatesCurrent` | relay/internal/relay/hub.go:837-934 | In every reachable hub state each correlation names the connections registered now. |
| `HubTraces.ForwardedOffersMatchResolves` | relay/internal/relay/control_v2.go:368-534 | Over every run, forwarded Offers map one-to-one to earlier READY Resolves of the same connection and target, consumed within 30 s. |
| `HubTraces.CreatedReservationsMatchOffers` | relay/internal/relay/control_v2.go:649-708 | Over every run, created reservations map one-to-one to earlier forwarded Offers with the same connection, attempt, target and target connection, claimed within 30 s. |
| `HubTraces.ReturnFramesMatchOffers` | relay/internal/relay/control_v2.go:538-639 | Over every run each forwarded Offer yields at most one return frame, from its exact target connection to its exact initiator connection. |
| `HubLifetimes.SocketForgets` | relay/internal/relay/hub.go:741-934 | A replacement, disconnect, removal or shutdown forgets exactly the attempts and gates that name a socket it loses or cleans up. |
| `HubLifetimes.GateLasts` | relay/internal/relay/reservation.go:229-238 | Over every run a gate stays as it was stored, whatever answers, errors and other requests come, until it is taken, a named socket is lost or a sweep finds it expired. |
| `HubLifetimes.RouteLasts` | relay/internal/relay/control_v2.go:538-575 | Over every run the route of an attempt stays, whatever reservations and frames of other connections come, until its own target returns a frame, a named socket is lost or it is found expired. |
| `HubLifetimes.GateStep` | relay/internal/relay/hub.go:454-473 | Taking a gate or losing a socket it names ends it in that very step. |
| `HubLifetimes.RouteStep` | relay/internal/relay/control_v2.go:538-575 | So does a return frame of its target or the loss of a named socket for a route. |
| `HubLifetimes.OfferStaysReservable` | relay/internal/relay/control_v2.go:451-708 | After any run in which nothing ends its gate, a forwarded Offer is reservable by its sender if and only if its 30 s are not over and both sockets are registered and open. |
| `HubLifetimes.OfferStaysAnswerable` | relay/internal/relay/control_v2.go:451-639 | After any run in which nothing ends its route, a forwarded Offer is answerable by its target if and only if its 30 s are not over and the initiator socket routes frames. |
| `HubTraces.HandshakeCompletes` | relay/internal/relay/control_v2.go:399-575 | Between two registered open sockets with room in both registries a READY Resolve lets the Offer through, the target answers once and the initiator may reserve. |
| `RelayDataAccounting.ReplaceActiveKeeps` | relay/internal/relay/relay_data_registry.go:393-417 | Replacing an active pair keeps the counters exact and within twice the cap although it skips the pending check; the active counter was positive. |
| `RelayDataAccounting.ReleaseKeeps` | relay/internal/relay/relay_data_registry.go:530-571 | Releasing an endpoint that fills a role slot removes its pair, keeps the counters exact and never meets a zero counter. |
| `RelayDataAccounting.ReleaseAllKeeps` | relay/internal/relay/relay_data_registry.go:611-616 | Releasing any list of endpoints keeps the counters exact. |
| `RelayDataAccounting.RemoveUpgradesSlots` | relay/internal/relay/relay_data_registry.go:281-296 | upgradeSlots stays the number of leases plus unadmitted endpoints, and exactly the listed endpoints leave. |
| `RelayDataAccounting.DropLeasesSlots` | relay/internal/relay/relay_data_registry.go:183-197 | The same for leases invalidated in any order. |
| `RelayDataInvariants.LinksAreMutual` | relay/internal/relay/relay_data_connection.go:142-158 | Linked endpoints point at each other, are different and share a reservation. |
| `RelayDataInvariants.ReleaseAllOk` | relay/internal/relay/relay_data_registry.go:530-571 | Any sequence of releases keeps slots, references, links and counters consistent. |
| `RelayDataRuns.TableStep` | relay/internal/relay/relay_data_registry.go:329-571 | Every mutex region keeps accounting, placement, links and tombstones exact. |
| `RelayDataRuns.AccountingIsExact` | relay/internal/relay/relay_data_registry.go:329-480 | In every run, with the mutex free, pairs are one-slot inactive or two-slot active, the counters count exactly these, active pairs stay within the cap, all pairs within twice the cap, and upgradeSlots equals leases plus unadmitted endpoints. |
| `RelayDataRuns.DecrementsNeverSaturate` | relay/internal/relay/relay_data_registry.go:185-197 | In every run whatever can be freed is counted, so no zero-guarded decrement is ever needed. |
| `RelayDataRuns.ShutdownIsFinal` | relay/internal/relay/relay_data_registry.go:668-687 | From closeAll on, pairs, references, leases, upgrades and all counters are empty or zero in every later state. |
| `RelayDataRuns.ReleaseAllRemoves` | relay/internal/relay/relay_data_registry.go:679-686 | Releasing a list of endpoints leaves exactly the pairs none of them fills. |
| `RelayDataRuns.ConsumedStaysOut` | relay/internal/relay/relay_data_registry.go:360-372 | Once an activated reservation has left the registry it is not admitted again, by any step of any run, before the full retention since its last activation has passed. |
| `RelayDataRuns.ReadmissionNeedsLivePair` | relay/internal/relay/relay_data_registry.go:360-372 | Within the retention an admission succeeds only through an active or replacement-pending pair; the tombstone table never exceeds its cap. |
| `RelayDataDelivery.PumpStepOk` | relay/internal/relay/relay_data_connection.go:626-668 | Every step of a writer, reader or timer keeps the endpoint lossless while alive, its socket in queue order and PairReady first. |
| `RelayDataDelivery.BeginOrder` | relay/internal/relay/relay_data_connection.go:626-647 | Starting a write keeps the business frames a prefix of those accepted and behind PairReady. |
| `RelayDataPairing.SysStep` | relay/internal/relay/relay_data_registry.go:437-515 | Every registry, pairing, forwarding or pump step keeps the joint invariant of registry and sockets. |
| `RelayDataPairing.ActivateMates` | relay/internal/relay/relay_data_registry.go:469-480 | Activation fixes the two mates of a pair, neither of which ever had one before. |
| `RelayDataPairing.ForwardToMate` | relay/internal/relay/relay_data_registry.go:489-515 | Forwarding hands a frame only to the sender's mate, after the sender's PairReady was written. |
| `RelayDataPairing.ReachableSystems` | relay/internal/relay/relay_data_registry.go:437-515 | The joint invariant holds in every state of every interleaving. |
| `RelayDataGuarantees.PairReadyOnlyAfterCommit` | relay/internal/relay/relay_data_connection.go:33-57 | In every interleaving a PairReady write begins only after a state in which its pair was active with both PairReady frames queued, and only on a party of that pair. |
| `RelayDataGuarantees.BusinessFollowsPairReady` | relay/internal/relay/relay_data_connection.go:626-668 | No business frame is written to an endpoint, nor its write begun, before the endpoint's own PairReady. |
| `RelayDataGuarantees.ForwardFollowsOwnPairReady` | relay/internal/relay/relay_data_registry.go:489-497 | Every accepted forward comes from an endpoint whose PairReady, for this very pair, was already written. |
| `RelayDataGuarantees.DeliveryIsPrefix` | relay/internal/relay/relay_data_registry.go:489-515 | Business frames on a socket are a prefix, in order, of what forwarding accepted for it, all from one counterpart of the same reservation. |
| `RelayDataGuarantees.AcceptedIsHanded` | relay/internal/relay/relay_data_registry.go:489-515 | The business frames a queue ever took are exactly the accepted forwards, in order. |
| `RelayDataGuarantees.NoBusinessAfterCloseDevice` | relay/internal/relay/relay_data_registry.go:584-632 | After closeDevice has returned no business write starts on any target or its counterpart, in any later state. |
| `RelayDataGuarantees.StaysSilent` | relay/internal/relay/relay_data_connection.go:520-547 | A terminal endpoint whose write gate was free writes nothing but close frames ever after. |
| `RelayDataDetachment.DetachedIsTerminal` | relay/internal/relay/relay_data_registry.go:381-418 | In every run an admitted endpoint that no longer fills its role slot (displaced, counterpart gone, pairing rolled back, device closed) is terminal. |
| `RelayDataDetachment.CloseHolds` | relay/internal/relay/relay_data_registry.go:549-571 | Closing endpoints takes role slots only from them and their counterparts. |
| `RelayDataExample.FramesDoFlow` | relay/internal/relay/relay_data_registry.go:437-515 | A run in which two endpoints are staged, admitted and paired and a frame of the first reaches the socket of the second right behind its PairReady. |
| `RelayDataRegistries.RelayDataRegistry.BeginUpgrade` | relay/internal/relay/relay_data_registry.go:153-181 | Grants a lease unless closed or all slots are charged, as the machine step. |
| `RelayDataRegistries.RelayDataRegistry.InvalidateLease` | relay/internal/relay/relay_data_registry.go:183-197 | Frees a live lease exactly once. |
| `RelayDataRegistries.RelayDataRegistry.StageEndpoint` | relay/internal/relay/relay_data_registry.go:212-236 | A live lease becomes a tracked endpoint and keeps its slot; a closed registry, a spent lease or a terminal endpoint is refused and nothing changes. |
| `RelayDataRegistries.RelayDataRegistry.PruneConsumed` | relay/internal/relay/relay_data_registry.go:318-324 | Keeps exactly the unexpired tombstones. |
| `RelayDataRegistries.RelayDataRegistry.AdmitEndpoint` | relay/internal/relay/relay_data_registry.go:329-480 | Admission, displacement, pairing, commit and rollback take the table exactly where the machine steps do; peer, verdict and displaced endpoints are those of the step. |
| `RelayDataRegistries.RelayDataRegistry.Displace` | relay/internal/relay/relay_data_registry.go:380-418 | A retry displaces the waiting endpoint, or the whole active pair. |
| `RelayDataRegistries.RelayDataRegistry.ReleaseEndpoint` | relay/internal/relay/relay_data_registry.go:530-571 | Detaches exactly one endpoint; an active pair goes with it. |
| `RelayDataRegistries.RelayDataRegistry.CollectTargets` | relay/internal/relay/relay_data_registry.go:591-606 | Finds exactly the device's endpoints before the cutoff and the counterparts of its admitted ones. |
| `RelayDataRegistries.RelayDataRegistry.CloseDeviceBeforeGeneration` | relay/internal/relay/relay_data_registry.go:584-616 | The mutex region of closeDevice is the machine step over some order of leases and targets. |
| `RelayDataRegistries.RelayDataRegistry.CloseAll` | relay/internal/relay/relay_data_registry.go:668-687 | Shutdown detaches everything and leaves all counters zero. |
| `RelayDataRegistries.ReleaseAllSnoc` | relay/internal/relay/relay_data_registry.go:614-616 | Releasing one more endpoint after a list is releasing the longer list. |
| `RelayDataConns.RelayDataConn.Enqueue` | relay/internal/relay/relay_data_connection.go:649-668 | Takes a frame exactly when not done, not terminal (close frames excepted), within budget and not full. |
| `RelayDataConns.RelayDataConn.WriteOutbound` | relay/internal/relay/relay_data_connection.go:626-647 | Writes the held frame or discards it: terminal endpoints write only close frames, also when they turn terminal while the writer waits for the decision or the write gate, and PairReady only once committed. |
| `RelayDataConns.RelayDataConn.DrainOutbound` | relay/internal/relay/relay_data_connection.go:603-622 | The drain writes exactly the close frames it flushes, in queue order, and stops early only by losing one frame to a failed write or the deadline. |
| `ReplayNonces.AgreeLater` | relay/internal/relay/cache.go:164-193 | Two books that agree on the unexpired nonces at one time agree at every later time. |
| `ReplayNonces.RecordedUntilExpiry` | relay/internal/relay/cache.go:180-193 | In every run an accepted nonce stays recorded with its expiry until it expires. |
| `ReplayNonces.AcceptedAtMostOnce` | relay/internal/relay/cache.go:164-193 | The same device, nonce and expiry is accepted at most once in any run. |
| `ReplayNonces.ProofAcceptedAtMostOnce` | relay/internal/relay/refresh.go:142-158 | A signed proof of one device, timestamp and nonce is accepted at most once in any run. |
| `ReplayNonces.FreshProofAccepted` | relay/internal/relay/refresh.go:22-39 | A fresh proof consumed when it is checked is refused exactly when its nonce is live or the device holds 128 live nonces. |
| `ReplayNonces.SlackIsNeeded` | relay/internal/relay/refresh.go:20-25 | Without the one-second slack exactly the oldest fresh timestamp would be refused. |
| `NonceCaches.NonceCache.ConsumeNonce` | relay/internal/relay/cache.go:164-193 | Answers exactly like the naive book that never prunes, for every sequence of calls with non-decreasing times. |
| `NonceCaches.NonceCache.PruneDevice` | relay/internal/relay/cache.go:244-270 | Keeps exactly the device's unexpired nonces and re-indexes their earliest expiry. |
| `NonceCaches.NonceCache.PruneExpired` | relay/internal/relay/cache.go:229-238 | Prunes at most the budget, earliest device first; stops early only when nothing indexed has expired. |
| `NonceCaches.NonceCache.SplitExpired` | relay/internal/relay/cache.go:251-260 | The unexpired entries of a device map and their least expiry. |
| `NonceCaches.NonceCache.Track` | relay/internal/relay/cache.go:209-221 | The heap keeps one entry per device with nonces, keyed by the least expiry of its map. |
| `Leases.LeaseIsFenced` | relay/internal/relay/cache.go:272-426 | From a connection's Take until its lease expires, is released by it or taken anew, it owns the lease in every state and nobody else's operation changes the lease, touches its live discovery or publishes for the device. |
| `Leases.OthersAreFenced` | relay/internal/relay/cache.go:296-426 | One operation of another connection leaves lease and live discovery untouched. |
| `Leases.MemoryLeases.Take` | relay/internal/relay/cache.go:272-290 | Unconditional takeover that reports the live lease it replaced. |
| `Leases.MemoryLeases.Renew` | relay/internal/relay/cache.go:296-307 | Renews for the owner or on a missing lease only. |
| `Leases.MemoryLeases.Release` | relay/internal/relay/cache.go:311-328 | Releases only a live lease of the caller. |
| `Leases.MemoryLeases.Get` | relay/internal/relay/cache.go:330-342 | Sees a lease through the instant of its expiry and drops it afterwards. |
| `Leases.MemoryLeases.Publish` | relay/internal/relay/cache.go:368-383 | Writes discovery only for the live presence owner. |
| `Leases.MemoryLeases.RenewPublished` | relay/internal/relay/cache.go:388-406 | Extends the entry without touching its content, never a live entry of another connection. |
| `Leases.MemoryLeases.ReleasePublished` | relay/internal/relay/cache.go:410-426 | Erases only the caller's live entry, or an expired one. |
| `Leases.MemoryLeases.GetPublished` | relay/internal/relay/cache.go:428-440 | Sees an entry through the instant of its expiry and drops it afterwards. |
| `Leases.MemoryLeases.ListOnline` | relay/internal/relay/cache.go:465-485 | Lists exactly the devices with both leases seen, equal owners and revision above zero, with their stored snapshots. |
| `Leases.ExactlyTheOwnerIsServed` | relay/internal/relay/cache.go:296-383 | While a lease is live its owner, and nobody else, can renew it, release it and publish. |
| `DiscoveryPublish.SameStringSet` | relay/internal/relay/hub_control.go:237-252 | Decides equality of the two lists as multisets. |
| `DiscoveryPublish.FlightStep` | relay/internal/relay/resolve.go:189-246 | While the publisher owns the lease, what is stored is what it read, under any interleaving. |
| `DiscoveryPublish.RevisionsNeverFall` | relay/internal/relay/resolve.go:215-229 | While an entry stays stored, snapshots of one epoch never lower the revision and equal revisions have equal content, for every interleaving of publishers. |
| `DiscoveryPublish.HintsAreExact` | relay/internal/relay/resolve.go:226-240 | The announced hint is the one due for what reads at the write time see (online on becoming ready, updated on an epoch or revision change, else none) if and only if an online entry the publisher read is still seen, neither dropped nor expired, when it writes. |
| `DiscoveryPublish.HintCanBeMissed` | relay/internal/relay/resolve.go:226-240 | Two runs in which that exception happens, with the expired entry dropped or still stored: the device becomes ready again unannounced. |
| `DiscoveryPublish.ResolvePeer` | relay/internal/relay/resolve.go:113-156 | At most two rounds of three separate reads; READY only if one connection owned the lease at both presence reads and published the complete snapshot read between them. |
| `DiscoveryPublish.ReadyUnderTakeover` | relay/internal/relay/resolve.go:113-156 | When the reads fall into a run of the store and another connection took the lease over between the presence reads of a READY round, the named connection regained it before the second of them. |
| `DiscoveryPublish.RefusesExactlyTheRest` | relay/internal/relay/resolve.go:215-224 | The revision rule refuses exactly the snapshots that may not follow the one read, and as stale exactly a lower revision of the same epoch. |
| `FanoutLimiters.RateIsBounded` | relay/internal/relay/hub_control.go:50-79 | In any stretch of calls of any run a device that is not forgotten is allowed at most 4 publishes plus one per 5 s; the table never exceeds maxDevices. |
| `FanoutLimiters.DroppingIdleIsHarmless` | relay/internal/relay/hub_control.go:93-99 | Dropping a budget idle for 10 minutes changes no token decision at any later time. |
| `FanoutLimiters.GrantsArePaid` | relay/internal/relay/hub_control.go:64-78 | Grants are paid by the credit at the start and the refill since. |
| `FanoutLimiters.FanoutLimiter.Allow` | relay/internal/relay/hub_control.go:50-79 | Decides and updates exactly as credit, table room and the empty device id demand. |
| `FanoutLimiters.FanoutLimiter.Prune` | relay/internal/relay/hub_control.go:93-99 | Keeps exactly the budgets used within the retention. |
| `FanoutLimiters.FanoutLimiter.Forget` | relay/internal/relay/hub_control.go:84-91 | Removes exactly one device's budget. |
| `FanoutLimiters.OneRefillSuffices` | relay/internal/relay/hub_control.go:64-78 | A known device is allowed again one refill after its last call. |
| `FanoutLimiters.BurstIsFour` | relay/internal/relay/hub_control.go:57-79 | A new device gets four publishes at one instant and not a fifth. |
| `Enrollment.NextGeneration` | relay/internal/relay/storage.go:163-175 | The next generation exceeds its base. |
| `Enrollment.EnrollmentStore.PutEnrollment` | relay/internal/relay/storage.go:129-157 | Refuses another key, a protocol downgrade and a full table; otherwise stores a generation above the current one or the tombstone floor and clears the tombstone. |
| `Enrollment.EnrollmentStore.RevokeEnrollment` | relay/internal/relay/storage.go:189-205 | Removes the enrollment and leaves a tombstone with deadline and floor, or fails closed. |
| `Enrollment.EnrollmentStore.WriteRevocation` | relay/internal/relay/storage.go:216-230 | Prunes expired tombstones, extends an existing one, never evicts a live one. |
| `Enrollment.EnrollmentStore.PruneExpired` | relay/internal/relay/storage.go:281-287 | Keeps exactly the unexpired tombstones. |
| `Enrollment.EnrollmentStore.CheckRevoked` | relay/internal/relay/storage.go:242-258 | Revoked exactly while the tombstone lasts; an expired one is dropped. |
| `Enrollment.DroppedMeansExpired` | relay/internal/relay/storage.go:242-258 | When a tombstone may be dropped, every credential it covered has expired. |
| `Enrollment.StepAccounts` | relay/internal/relay/storage.go:129-258 | Every enroll, refresh, revoke and prune keeps each issued credential expired, current or covered by a tombstone floor. |
| `Enrollment.RevokedCredentialsStayRejected` | relay/internal/relay/device_enrollment.go:361-374 | After a successful revocation no credential issued before it is accepted by any later state of any run. |
| `Enrollment.FloorForcesNewGeneration` | relay/internal/relay/storage.go:146-156 | A new enrollment gets a generation above every unexpired credential of the device. |
| `Enrollment.IssuedIsAccepted` | relay/internal/relay/device_enrollment.go:361-374 | A credential issued on enrollment is accepted exactly until it expires, even right after an earlier revocation. |
| `EnrollmentGenerations.FallsExactlyWhenForgotten` | relay/internal/relay/storage.go:146-175 | In every run a re-enrollment fails to rise above the latest generation of the device if and only if the store holds neither its enrollment nor its tombstone and the candidate is not above that generation. |
| `EnrollmentGenerations.GenerationsRiseExactly` | relay/internal/relay/storage.go:146-175 | In every run the generations of a device strictly rise if and only if no enrollment meets that condition. |
| `EnrollmentGenerations.MarginPreventsFalls` | relay/internal/relay/storage.go:146-175 | None does when candidates are clock readings and the credential lifetime exceeds their lag plus two microseconds per enrollment. |
| `EnrollmentGenerations.LateIssueStaysRejected` | relay/internal/relay/device_enrollment.go:361-374 | A credential authorised before a revocation and issued at any time, with any lifetime, is accepted afterwards only if such a fall happened. |
| `EnrollmentGenerations.GenerationCanFall` | relay/internal/relay/storage.go:146-175 | A run in which the generation falls from 1000000 to 999999 after its tombstone was pruned, and the credential of the new one is accepted. |
| `Authentication.Authenticator.EnrollmentClaimsCurrent` | relay/internal/relay/device_enrollment.go:361-374 | Accepts exactly the unexpired, unrevoked claims that match the current key, generation and protocol. |
| `Authentication.Authenticator.AuthenticateRequest` | relay/internal/relay/device_enrollment.go:247-303 | Accepts exactly a genuine request with a free nonce; only a genuine request spends its nonce, and the store loses at most an expired tombstone of the device. |
| `Authentication.Authenticator.RefreshCredential` | relay/internal/relay/refresh.go:105-165 | Issues a credential of the current generation exactly when enrolled, unrevoked, key and proof match and the nonce is free; the store loses at most an expired tombstone of the device. |
| `DeviceEvents.EventsSpareExactly` | relay/internal/relay/events.go:98-162 | In every run all published events, handled late, repeatedly or out of order, spare the generation they find if and only if no enrollment falls from a positive generation. |
| `DeviceEvents.EventsSpareCurrent` | relay/internal/relay/events.go:98-162 | Where none falls, an event handled on a read of any earlier state after it, or without an answer, spares the generation current at the close, except that a revoke reaches it exactly when the device was absent at the read. |
| `DeviceEvents.EventKeepsCurrentSockets` | relay/internal/relay/events.go:98-162 | There handling an event keeps every control socket, endpoint and lease of the current generation, if that generation was durable when the handler read the store. |
| `DeviceEvents.KickReach` | relay/internal/relay/events.go:102-124 | A kick reaches the current generation if and only if its own generation is newer, on a failed or an outdated read alike. |
| `DeviceEvents.RevokeReach` | relay/internal/relay/events.go:129-162 | A revoke reaches the current generation if and only if the device was absent at the read, or its own generation is not older than what was read, or than the current one without an answer. |
| `DeviceEvents.StaleKickReachesCurrent` | relay/internal/relay/events.go:102-124 | A run with a falling generation in which a delayed kick closes the control socket of the current generation, whose credential is accepted. |
| `DeviceEvents.KicksAreNotNewer` | relay/internal/relay/device_enrollment.go:207-224 | Where no enrollment falls, no kick ever published is newer than an enrollment it can find. |
| `DeviceEvents.RevokesAreOlder` | relay/internal/relay/storage.go:189-205 | There every revoke ever published is older than any later enrollment. |
| `DeviceEvents.DataSocketsAfterClose` | relay/internal/relay/relay_data_registry.go:584-616 | Closing before a generation keeps exactly the device's endpoints and leases that are not older. |
| `DeviceEvents.HubSocketsAfterClose` | relay/internal/relay/hub.go:916-934 | The same for the registered and the pending control socket; those of every other device stay. |
| `DeviceEvents.ReconcileIsExact` | relay/internal/relay/events.go:228-254 | A reconcile step keeps exactly the device's sockets of the durable generation or newer, none if it is absent. |
| `DeviceEvents.CloseConverges` | relay/internal/relay/events.go:228-254 | Closing leaves no older socket of the device and opens none anywhere. |
| `RelayServers.RelayServer.HandleKicked` | relay/internal/relay/events.go:102-124 | Closes data and control sockets before the newer of event and durable generation. |
| `RelayServers.RelayServer.HandleRevoked` | relay/internal/relay/events.go:129-162 | Closes before the current generation, before the successor of the event's on a store error, or all. |
| `RelayServers.RelayServer.Reconcile` | relay/internal/relay/events.go:209-255 | A sweep leaves exactly the sockets and leases that are not older than the answer for their device, apart from endpoints linked to an older one; it completes exactly when every local device has an answer, and then nothing older is left, and nothing of an absent device. |
| `RelayServers.RelayServer.ReconcileDevice` | relay/internal/relay/events.go:228-254 | One device of the sweep; a failed read leaves everything alone. |
| `ReconcileSweep.Visit` | relay/internal/relay/events.go:228-254 | Visiting one more device closes exactly its older control sockets, leases and endpoints and the endpoints linked to these, however the devices are ordered. |
| `ReconcileSweep.SurvivorKeepsLink` | relay/internal/relay/relay_data_registry.go:591-616 | An endpoint that a close spares keeps its counterpart. |
| `ReconcileSweep.SweptLeavesNoneOlder` | relay/internal/relay/events.go:209-255 | After every local device was visited no socket older than a successful answer is left. |
| `ReconcileSweep.UnansweredKeepsControl` | relay/internal/relay/events.go:228-236 | A device whose read failed or that was not reached loses no control socket and no lease. |

## Left out

- WebSocket upgrade, reads, deadlines, ping handlers and goroutine shutdown timers: input and output; only success or failure of a write and the terminal flags are modelled.
- HTTP handlers, JSON rendering, configuration, routes and client addresses: plumbing.
- HMAC, Ed25519, base64 and random tokens: a credential cannot be forged and fresh values are fresh.
- The version 2 protobuf codec: frames are abstract values.
- MySQL and Redis stores: the memory store's rules and an arbitrary order of published events stand for them.
- RemoveEnrollment, RecordRevocation and ClearDeviceNonces: maintenance entry points outside the run properties.
- Keepalive timing, sliding reservation windows and per-second rate windows: each is one counter against one clock.
- The memory reservation store and the lifetime clamp: a bounded map and a clamp.
- Admin service, telemetry, front end and test fixtures.
- HubTraces.ForwardedOffersMatchResolves: the 30 s bound is measured when the ticket is consumed; the lookups between that and the hand-over have their own timeouts, which are not modelled.
- HubTraces.CreatedReservationsMatchOffers: likewise measured when the gate is consumed; the re-check before the tokens are delivered, which can only delete the reservation again, is not modelled.
- Hubs.Hub.CommitOffer: the two authoritative lookups arrive as the owners they proved READY; closing the target after a full queue is a later step of its own.
- RelayDataRegistries.RelayDataRegistry.StageEndpoint: the activation barrier between staging and the first frame is not modelled; an endpoint may act as soon as it is staged, so every run of the source is one of the model.
- RelayDataRegistries.RelayDataRegistry.AdmitEndpoint: endpoints are records named by identity and the per-device index maps are flat sets filtered by device, so aliasing of endpoint objects is not captured; the PairReady queueing inside it is one flag here and separate steps in `RelayDataPumps`.
- RelayDataPumps.ForwardTo: forwardEndpoint is the enabling function of the Forward step rather than a method, because it reads the pumps' flags.
- RelayDataGuarantees.NoBusinessAfterCloseDevice: closeDevice returns once every target's write gate was seen free; a write that never ends keeps it from returning.
- Leases.LeaseIsFenced: stated for leases that are live or expired; at the very instant of expiry the source's operations differ in strictness, and so do the modelled ones.
- DiscoveryPublish.FlightStep: a connection handles its frames one after the other, so its heartbeat does not overlap its own publish.
- FanoutLimiters.RateIsBounded: tokens are exact reals; floating-point rounding is not modelled.
- Enrollment.RevokedCredentialsStayRejected: issuing a credential is one step with the enroll or refresh that authorised it; a revocation between the two is the subject of EnrollmentGenerations.LateIssueStaysRejected.
- DeviceEvents.EventKeepsCurrentSockets: the device lock, which is held from a handler's read to its close, is the condition that the generation was durable at the read; the lock itself is not modelled.
- NonceCaches.NonceCache.SplitExpired: the earliest expiry is optional instead of Go's zero time, so a nonce that expires in year 1 is not singled out.
- RelayServers.RelayServer.Reconcile: the device lock and the event bus connection are not modelled; forgetting the limiter budget of an absent device is the limiter's own Forget.
