# Verified model of the UPnP controller

The controller keeps three separately mutable worlds in step: the `PortMapping` objects of a
Kubernetes cluster, the table of TCP and UDP proxies inside the controller, and the leased NAT
table of a home router. It also points DNS records at the router's WAN address. This project
models the parts that decide something and proves what they achieve together.

`dafny verify dfyconfig.toml` checks everything.

| module | what it models |
|---|---|
| `Text`, `Wrappers` | the string and number operations the controller takes from Rust's standard library |
| `PortMappings` | the PortMapping resource and the encoding of its names |
| `Annotations` | the port-forward annotation of Services and Pods |
| `Proxies`, `ProxyConcurrency` | the proxy manager, first as an object, then under concurrent calls |
| `UdpSessions` | the session table of one UDP proxy, shared by its receive loop and its relay tasks |
| `Reconciler`, `Stabilisation`, `Idempotence` | one pass of the Service and Pod watchers over store and proxy table |
| `Lease`, `LeaseRuns` | the PortMapping controller against a router that leases entries, with a nanosecond clock |
| `EndToEnd` | the annotation of a Service or Pod followed to the router and back to its address |
| `Shortfalls` | inputs on which a pass misses what its annotation asks for |
| `DnsEndpoints`, `WanAddress`, `Propagation` | the two writers of the WAN address, the patches that follow, and both together |
| `Soap`, `RootDesc` | the AddPortMapping body and its reader; the event loop over a gateway's root description |

Objects whose methods update fields are classes (`ProxyManager`, `UdpProxy`, `Watcher`,
`EndpointStore`, `EventingState`), with the source's loops; each method is proved equal to a
function of the old state, and the theorems are about those functions. Where tasks interleave,
an asynchronous function is cut at its awaits and lock releases into steps, and the theorems
range over all runs of such steps. Binding a socket, patching, deleting, listing and the
router's answers may each fail at any point; their outcomes are inputs of the model.

These results say exactly when the code meets its promise, or show that it does not:

- After a failure-free pass the owner's live PortMappings are named by the annotation if and only
  if none of those names was already being deleted (`LiveNamesAreDesired`); an annotation removed and
  restored while the PortMapping carries its finalizer is such a case (`RestoredExample`).
- A second pass changes nothing if and only if no external port and protocol was given two
  internal ports; otherwise it restarts a proxy every time (`SecondPassChangesNothingIff`), as
  `80:1,80:2` does (`TwoTargetsRestartEveryPass`).
- Once a PortMapping has been added and is kept timely from then on, its lease never runs out if
  and only if response latency, wake-up delay and request latency stay under 30 seconds together,
  and with the status query and a late pause under the lease. The late pause is the ten-second clamp,
  or the 30-second error retry when status patches may fail (`LapsesExactlyBeyondBounds`). Here
  timely means that deadlines are kept and its adds succeed.
- Its entry survives whatever the reconciles and deletions of other PortMappings do if and only if
  none of them claims its key (`HeldAgainstOthersIff`).
- An entry of the annotation is what the router and the proxy carry out if and only if the last
  entry of its name asks for the same internal port (`RequestReachesRouter`); the first entry of
  `80:1,80:2` does not prevail (`FirstTargetDoesNotPrevail`).
- The multi-lock `ensure_proxy` refines an atomic table when no two calls in flight share a key
  (`ExclusiveRunsRefineAtomicTable`). A returned port is what `get_port` reports until the next call
  on the key if and only if every call then in flight on the key has only entered and asks for what
  the entry serves, given that two bound sockets have two ports (`ReturnedPortStaysIff`);
  `SharedKeyLosesReturnedPort` is a run without that.
- A managed DNSEndpoint with an A record that is right stays right, while the address stays, if and
  only if no fan-out with another address has yet to list or to patch it, and none is still to be
  started (`DnsEndpoints.StaysRightIff`, `Propagation.StaysRightIff`); a run from startup in which a
  late fan-out undoes it is `LateFanoutUndoes`.
- The retry timer after a refused renewal is due inside the lease if and only if the inactive
  status could not be written and the refusal came less than 3570 seconds after the add; any other
  trigger sends the add again at once (`RetryTimerInsideLeaseIff`, `RefusedAddIsSentByNextTrigger`).
- A datagram forwarded by the UDP proxy can be answered if and only if the relay of its socket is
  still in its receive loop, which the session table does not tell (`ForwardIsAnswerableIff`).
- A live PortMapping the annotation no longer asks for outlives a failure-free pass if and only if
  the pass returns early (`StaleSurvivesIff`), as it does for a Service that lost its ClusterIP
  (`HeadlessServiceKeepsStale`).
- Two names are equal if and only if the dash-joined owner, port and protocol are
  (`NameEncoding`), so owners in two namespaces can clash (`NameClashAcrossNamespaces`).

Where the documentation and the code differ, the code is followed: `docs/architecture.md` says
that only TCP listeners are started, while the code starts UDP sockets too; `docs/crds.md` says
leases are renewed 30 seconds before expiry, while truncation to whole seconds makes that less
than 31 seconds before the recorded expiry; the comment in `src/proxy.rs` gives `ns/name/80/TCP`
as a proxy key, while the watchers pass the dash-joined PortMapping name; the comment on the
Service watcher (`src/controllers/port_mapping_ctrl.rs:251`) speaks of LoadBalancer Services,
while every Service is watched and reconciled alike.

## Model

| member | source | states |
|---|---|---|
| Text.SplitAppend | src/controllers/port_mapping_ctrl.rs:667 | splitting distributes over a separator |
| Text.ParseDecimal | src/controllers/port_mapping_ctrl.rs:673 | printing and parsing an unsigned number is the identity up to the type's maximum, and fails beyond it |
| Text.ParseUnsignedIff | src/controllers/port_mapping_ctrl.rs:673 | exactly the decimal form of a number in range, behind any zeros and at most one plus sign, parses to it |
| Text.FindIsFirst | src/upnp/port_mapping.rs:192 | a search gives the first occurrence, or nothing exactly when there is none |
| PortMappings.NamesRead | src/controllers/port_mapping_ctrl.rs:603-609 | a TCP name and a UDP name, written out |
| PortMappings.NameEncoding | src/controllers/port_mapping_ctrl.rs:603-609 | two names agree exactly when ns-name, external port and protocol agree |
| PortMappings.NameInjectiveInNamespace | src/controllers/port_mapping_ctrl.rs:370-373 | within one namespace names are injective in owner name, port and protocol |
| PortMappings.NameClashAcrossNamespaces | src/controllers/port_mapping_ctrl.rs:603-609 | two owners in different namespaces that get the same name |
| Annotations.ParsePortList | src/controllers/port_mapping_ctrl.rs:662-691 | the pushing loop computes the concatenation of what each part contributes |
| Annotations.CommaConcatenates | src/controllers/port_mapping_ctrl.rs:662-691 | the list of `a,b` is the list of `a` followed by the list of `b`, for all strings and lookups |
| Annotations.RemapRoundTrip | src/controllers/port_mapping_ctrl.rs:672-682 | printed ext:svc pairs parse back in order under every looked-up protocol, or TCP when there is none |
| Annotations.BlanksDoNotMatter | src/controllers/port_mapping_ctrl.rs:667-673 | blanks around the numbers of a pair do not change what it asks for |
| Annotations.JunkIsSkipped | src/controllers/port_mapping_ctrl.rs:667-690 | a part without a digit asks for nothing and leaves its neighbours alone |
| Annotations.TrueAsksForDeclared | src/controllers/port_mapping_ctrl.rs:616-626 | "true" asks for each declared port modulo 65536 to itself, over UDP exactly when declared "UDP" |
| Annotations.PlainPortAsks | src/controllers/port_mapping_ctrl.rs:683-688 | a plain port asks for itself under exactly the protocols declared for it |
| Annotations.PairsAsk | src/controllers/port_mapping_ctrl.rs:672-682 | pairs ask for each external port to go to its service port under exactly the declared protocols, or TCP when there are none |
| Annotations.TrueAgreesWithExplicitList | src/controllers/port_mapping_ctrl.rs:612-657 | "true" and the explicit list of all declared ports ask for the same set of forwardings |
| Annotations.ColonFreeIsConsistent | src/controllers/port_mapping_ctrl.rs:683-688 | without a colon every port is forwarded to itself, so no external port gets two internal ones |
| Proxies.ProxyManager.EnsureProxy | src/proxy.rs:43-114 | the new table, loops and signals, and the returned port, as a function of the old ones and the bind outcome |
| Proxies.ProxyManager.StopProxy | src/proxy.rs:117-126 | the entry is removed and its loop signalled; an absent key changes nothing |
| Proxies.ProxyManager.GetPort | src/proxy.rs:129-131 | the port of the entry of a key |
| Proxies.ProxyManager.ActiveKeys | src/proxy.rs:134-136 | exactly the keys that have a port |
| Proxies.EnsureKeepsTidy | src/proxy.rs:43-126 | entries and running loops stay in bijection; the returned port serves the request and is what get_port reports; other keys keep their ports |
| ProxyConcurrency.NoLeak | src/proxy.rs:43-126 | in every interleaving a loop not told to stop has exactly one owner, and with no call in flight a map entry that describes it |
| ProxyConcurrency.EntryIsRunning | src/proxy.rs:105-126 | in every interleaving a map entry describes a loop that was not told to stop |
| ProxyConcurrency.ExclusiveRunsRefineAtomicTable | src/proxy.rs:49-126 | when no two calls in flight share a key, every step is silent or one atomic ensure or stop with the atomic result |
| ProxyConcurrency.QuietIsTidy | src/proxy.rs:43-126 | in every run, when no call is in flight, entries and running loops are in bijection |
| ProxyConcurrency.EntryStaysIff | src/proxy.rs:49-126 | in every reachable state an entry stays until the next call on its key iff every call in flight on it has only entered and asks for what it serves |
| ProxyConcurrency.ReturnedPortStaysIff | src/proxy.rs:43-131 | in every run a returned port is what get_port reports until the next call on its key iff the same holds, given distinct ports for distinct sockets |
| ProxyConcurrency.ReturnedPortLasts | src/proxy.rs:43-131 | in particular it lasts when no other call in flight shares the key |
| ProxyConcurrency.SharedKeyLosesReturnedPort | src/proxy.rs:60-61 | two calls in flight on one key, after which a returned port is not in the table |
| ProxyConcurrency.AloneIsSequential | src/proxy.rs:43-114 | a call that runs alone has the effect of the sequential function |
| UdpSessions.UdpProxy.OnDatagram | src/proxy.rs:213-285 | one pass of the receive arm is an arrival step followed by a forwarding step |
| UdpSessions.UdpProxy.OnRelayExit | src/proxy.rs:274 | removal by client address is the removal step of that relay |
| UdpSessions.SessionsMatchRelays | src/proxy.rs:229-284 | a client maps to a socket iff that socket's relay is the client's one unfinished relay |
| UdpSessions.LateRelayRemovesItsOwnEntry | src/proxy.rs:250-275 | a relay that exits removes the entry with its own socket and no other |
| UdpSessions.ResponsesStayWithTheirClient | src/proxy.rs:253-262 | what is sent back to a client came in on a socket that forwarded only its datagrams |
| UdpSessions.SocketsAreNotReused | src/proxy.rs:229-284 | no upstream socket ever forwards for two clients |
| UdpSessions.RelayRunsUntilItLeaves | src/proxy.rs:249-275 | in every run a relay is in its receive loop iff no send back has failed and no receive has failed or timed out, and meanwhile its client keeps the socket |
| UdpSessions.AnyNumberOfAnswers | src/proxy.rs:253-262 | any number of answers go back one after the other and leave the session as it is |
| UdpSessions.StoppedIsFinal | src/proxy.rs:286-296 | once the receive loop has ended nothing is forwarded and no socket is bound any more |
| UdpSessions.AnswerableIffRelaying | src/proxy.rs:249-275 | from any state some later run sends back an answer from a socket iff its relay is in its receive loop |
| UdpSessions.ForwardIsAnswerableIff | src/proxy.rs:229-284 | in every run the datagram being forwarded can be answered iff that relay is in its receive loop; the map gives the socket exactly until the relay has removed it |
| UdpSessions.LateForwardGetsNoAnswer | src/proxy.rs:231-284 | two runs, with the session still in the map and with it removed, in which a datagram goes out that no continuation answers |
| Reconciler.Watcher.ListOwned | src/controllers/port_mapping_ctrl.rs:282-299 | the listed objects with the owner's uid among their references |
| Reconciler.Watcher.Release | src/controllers/port_mapping_ctrl.rs:302-345 | every owned proxy stopped and every owned object deleted, as a function of the delete outcomes |
| Reconciler.Watcher.UpsertAll | src/controllers/port_mapping_ctrl.rs:375-427 | the upserting loop skips an entry whose bind fails, and stops at the first failed patch with what it has done so far |
| Reconciler.Watcher.RemoveStale | src/controllers/port_mapping_ctrl.rs:429-439 | every owned name that is not kept loses its proxy, and its object if the delete succeeds |
| Reconciler.Watcher.Apply | src/controllers/port_mapping_ctrl.rs:367-441 | store, proxies and result of the two loops for all bind, patch and delete outcomes |
| Reconciler.Watcher.OnService | src/controllers/port_mapping_ctrl.rs:314-442 | one Service pass, with shutdown, listing failure and the early returns |
| Reconciler.Watcher.OnPod | src/controllers/port_mapping_ctrl.rs:455-589 | one Pod pass, with the requeue while the pod has no address |
| Stabilisation.SelfStabilises | src/controllers/port_mapping_ctrl.rs:333-441 | from any world one failure-free pass publishes and aims every desired entry, removes what is stale, and changes nothing else |
| Stabilisation.LiveNamesAreDesired | src/controllers/port_mapping_ctrl.rs:333-439 | afterwards the live owned names are the desired ones iff none of them was terminating before |
| Stabilisation.PassTouchesConcerned | src/controllers/port_mapping_ctrl.rs:375-439 | every pass, failed or not, leaves all other objects and proxies alone and leaks no loop |
| Stabilisation.OthersAreLeftAlone | src/controllers/port_mapping_ctrl.rs:289-345 | in every pass an object that the annotation does not ask for and whose owners do not include the uid stays as it is, and so does its proxy |
| Stabilisation.CarriersUnaskedGo | src/controllers/port_mapping_ctrl.rs:335-345 | a labelled object with the uid that is not asked for is removed, or marked when it has a finalizer, and its proxy stopped |
| Stabilisation.AskedKeepsRest | src/controllers/port_mapping_ctrl.rs:389-421 | status, finalizer, deletion mark and other owners of an applied object stay |
| Stabilisation.ServiceApplies | src/controllers/port_mapping_ctrl.rs:322-324 | a Service's objects are in its namespace, named after it, and owned by its uid |
| Stabilisation.PodApplies | src/controllers/port_mapping_ctrl.rs:463-465 | likewise for a Pod, for the declared ports of all its containers |
| Stabilisation.UpsertPrograms | src/controllers/port_mapping_ctrl.rs:375-427 | after each prefix of the desired list its entries are published, the last of each name aimed |
| Stabilisation.SameNameSamePort | src/controllers/port_mapping_ctrl.rs:370-376 | entries that share a name share external port and protocol |
| Stabilisation.RemovedAnnotationReleases | src/controllers/port_mapping_ctrl.rs:335-345 | without the annotation no live owned object and no owned proxy is left |
| Stabilisation.StaleSurvivesIff | src/controllers/port_mapping_ctrl.rs:354-365 | a live object the annotation no longer asks for outlives a failure-free pass iff there is no usable backend or no matching port |
| Idempotence.SecondPassChangesNothingIff | src/controllers/port_mapping_ctrl.rs:375-439 | a second pass changes nothing iff the desired list is consistent, and otherwise starts a new loop |
| Idempotence.ColonFreePassesAreIdempotent | src/controllers/port_mapping_ctrl.rs:616-690 | passes are idempotent for "true" and every annotation without a colon |
| Lease.DueExactlyWhenBufferReached | src/controllers/port_mapping_ctrl.rs:98-111 | an active mapping is due iff more than 3569 seconds have passed since its recorded renewal |
| Lease.WaitedLongEnough | src/controllers/port_mapping_ctrl.rs:102-107 | the delay of the early return makes the mapping due and ends before the buffer |
| Lease.RequeuedLongEnough | src/controllers/port_mapping_ctrl.rs:158-163 | the requeue after an add makes the mapping due, and is at most the buffer before expiry or the clamp |
| Lease.InactiveIsDue | src/controllers/port_mapping_ctrl.rs:98-111 | a mapping that is not active, or has no expiry, is always due |
| Lease.ZeroLeaseIsPermanent | src/controllers/port_mapping_ctrl.rs:132-164 | a zero lease has no expiry and is looked at again after an hour |
| LeaseRuns.EntriesAreRecentSnapshots | src/controllers/port_mapping_ctrl.rs:118-136 | in every run a router entry is a snapshot of some PortMapping's spec added less than 3600 seconds ago |
| LeaseRuns.ReleasedEntryExpires | src/controllers/port_mapping_ctrl.rs:199-219 | the entry of a gone or re-keyed PortMapping is gone within one lease, even when the delete failed |
| LeaseRuns.CleanupDropsCurrentKey | src/controllers/port_mapping_ctrl.rs:205-219 | a cleanup that reaches the router drops the entry of the current key and no other, one that fails none |
| LeaseRuns.DeletedIsNotAdded | src/controllers/port_mapping_ctrl.rs:76-79 | a PortMapping that waits when it is deleted is never added again |
| LeaseRuns.ActiveMappingIsNotReAddedEarly | src/controllers/port_mapping_ctrl.rs:98-111 | in every run a reconcile re-adds an active mapping iff more than 3569 seconds have passed |
| LeaseRuns.TimerWakesRenew | src/controllers/port_mapping_ctrl.rs:105-107 | in every run a reconcile at or after its scheduled wake sends the add |
| LeaseRuns.StatusIsLastReport | src/controllers/port_mapping_ctrl.rs:145-188 | in every run the status is what the last status patch that landed said: active with its expiry after an add, inactive without one after a failed add |
| LeaseRuns.FailedAddIsRecorded | src/controllers/port_mapping_ctrl.rs:167-190 | what a refused add, or one whose answer is lost, leaves as status, and when its retry is due |
| LeaseRuns.SpecsAreWhatWasWritten | src/controllers/port_mapping_ctrl.rs:84-91 | in every run the generations of a spec are what was created and edited, in order and with the times |
| LeaseRuns.RetryTimerInsideLeaseIff | src/controllers/port_mapping_ctrl.rs:167-190 | in every run the retry timer after a refused renewal is due inside the recorded add's lease iff the inactive status was not written and the refusal came within 3570 seconds of the add |
| LeaseRuns.RetryTimerCanBeInsideLease | src/controllers/port_mapping_ctrl.rs:98-111 | a run that reaches such a refusal |
| LeaseRuns.RefusedAddIsSentByNextTrigger | src/controllers/port_mapping_ctrl.rs:97-190 | in every run a refused add is sent again by the next trigger, however soon and whether or not the inactive status was written |
| LeaseRuns.HeldAgainstOthersIff | src/controllers/port_mapping_ctrl.rs:113-219 | in every run, while its lease runs, a PortMapping's entry survives every continuation by reconciles and deletions of the others iff none claims its key |
| LeaseRuns.LeaseNeverLapses | src/controllers/port_mapping_ctrl.rs:97-165 | a PortMapping that since one of its adds is kept timely and its key apart has its last add in the router with the lease running, at every moment, whatever came before that add |
| LeaseRuns.StalenessIsBounded | src/controllers/port_mapping_ctrl.rs:97-136 | in such runs the entry matches the current spec, or the superseded entry's lease still runs and ends within a lease and a request latency of the edit |
| LeaseRuns.LapsesExactlyBeyondBounds | src/controllers/port_mapping_ctrl.rs:25-26 | a lease kept timely since an add can run out iff the latency bounds are not admissible, with status patches that always succeed and with ones that may fail |
| LeaseRuns.AdmissibleInNumbers | src/controllers/port_mapping_ctrl.rs:25-26 | the bounds in nanoseconds |
| EndToEnd.RequestReachesRouter | src/controllers/port_mapping_ctrl.rs:348-441 | for every annotated owner with a reachable backend, the router holds a desired entry as LAN address, proxy port and description, and the running loop on that port dials the backend's address and the entry's internal port, iff no later entry redirects its name |
| EndToEnd.TimelyRequestStaysReachable | src/controllers/port_mapping_ctrl.rs:97-165 | kept timely since an add, that holds at every moment after it |
| EndToEnd.ServiceReachesRouter | src/controllers/port_mapping_ctrl.rs:348-441 | in particular for a Service and its ClusterIP |
| EndToEnd.TimelyServiceStaysReachable | src/controllers/port_mapping_ctrl.rs:97-165 | and at every moment after the add when kept timely |
| EndToEnd.PodReachesRouter | src/controllers/port_mapping_ctrl.rs:485-589 | and for a Pod and its address |
| EndToEnd.TimelyPodStaysReachable | src/controllers/port_mapping_ctrl.rs:97-165 | likewise at every moment after the add |
| Shortfalls.TwoTargetsRestartEveryPass | src/controllers/port_mapping_ctrl.rs:375-388 | with the annotation `80:1,80:2` every further failure-free pass starts a new accept loop, from any world |
| Shortfalls.FirstTargetDoesNotPrevail | src/controllers/port_mapping_ctrl.rs:375-427 | of its two entries the second prevails |
| Shortfalls.RestoredAnnotationStaysGone | src/controllers/port_mapping_ctrl.rs:335-427 | an annotation removed and restored while an object carries a finalizer leaves that object asked for and not live, from any world |
| Shortfalls.RestoredExample | src/controllers/port_mapping_ctrl.rs:335-427 | one world and listing in which that happens |
| Shortfalls.HeadlessServiceKeepsStale | src/controllers/port_mapping_ctrl.rs:348-357 | a world in which a moved port's old object stays live exactly when the Service has no ClusterIP |
| DnsEndpoints.BuildPatchedSpec | src/controllers/dns_endpoint_ctrl.rs:186-194 | the loop overwrites the targets of exactly the A records |
| DnsEndpoints.PatchedIsCorrect | src/controllers/dns_endpoint_ctrl.rs:179-194 | patching makes the targets correct and changes a spec iff they were not |
| DnsEndpoints.EndpointStore.UpdateAllManaged | src/controllers/dns_endpoint_ctrl.rs:103-134 | an uninterrupted fan-out patches exactly the endpoints annotated "true" whose patch succeeds |
| DnsEndpoints.PatchesLowerMeasure | src/controllers/dns_endpoint_ctrl.rs:103-157 | every step that changes an endpoint lowers (leftover fan-out work, wrong endpoints); no step raises it |
| DnsEndpoints.ReconcilePatchesSnapshot | src/controllers/dns_endpoint_ctrl.rs:136-157 | a reconcile patches the endpoint it was called for with its snapshot, retargeted |
| DnsEndpoints.ChangesAreBounded | src/controllers/dns_endpoint_ctrl.rs:103-157 | in every run the number of effective patches is bounded by the initial measure |
| DnsEndpoints.RunConverges | src/controllers/dns_endpoint_ctrl.rs:103-157 | from any state, a run in which the fan-outs drain and each managed endpoint then gets one up-to-date reconcile whose patch, if any, lands leaves every managed A record at the WAN address |
| DnsEndpoints.WrongEndpointGetsCorrected | src/controllers/dns_endpoint_ctrl.rs:136-157 | while an endpoint is wrong, reading and patching it removes it, and only it, from the wrong ones |
| DnsEndpoints.ConvergedIsFinal | src/controllers/dns_endpoint_ctrl.rs:153-155 | after that no step changes an endpoint and no up-to-date reconcile patches |
| DnsEndpoints.EndpointHoldsLastPatch | src/controllers/dns_endpoint_ctrl.rs:121-134 | in every run, stale fan-outs included, an endpoint holds its original spec with the address of the last patch that landed on it |
| DnsEndpoints.RightExactlyWhenLastPatchIsCurrent | src/controllers/dns_endpoint_ctrl.rs:121-157 | the endpoint ends right iff that patch carried the current address, or it has no A record |
| DnsEndpoints.StaysRightIff | src/controllers/dns_endpoint_ctrl.rs:103-157 | from any state a right endpoint stays right in every continuation iff it is not managed, has no A record, or no fan-out with another address has yet to list or to patch it |
| WanAddress.EventingState.Observe | src/main.rs:188-195 | the critical section compares, counts and overwrites |
| WanAddress.CounterCountsChanges | src/main.rs:186-199 | in every interleaving the counter is the number of adjacent distinct values in the write log |
| WanAddress.FanoutsFollowCountedWrites | src/main.rs:303-317 | a fan-out starts once, exactly for counted writes that read the active flag as true |
| WanAddress.FanoutIffFlagSetBefore | src/main.rs:197-199 | in every run a changing write starts its one fan-out iff the flag was last set to true before its writer looked |
| WanAddress.SettledAddressStartsNoFanout | src/main.rs:186-199 | once the address has settled no write is counted and no fan-out starts |
| Propagation.AddressReachesEndpoints | src/main.rs:186-199 | from startup, through any writes, fan-outs and reconciles: once the address has settled, its fan-outs are done and each endpoint has been reconciled, every managed A record targets it |
| Propagation.UnmanagedIsLeftAlone | src/controllers/dns_endpoint_ctrl.rs:169-177 | in every run from startup an endpoint whose annotation is not "true" stays exactly as it was |
| Propagation.OnlyATargetsChange | src/controllers/dns_endpoint_ctrl.rs:186-194 | in every run only targets of A records change |
| Propagation.FanoutsMatchAccounting | src/main.rs:195-199 | a writer that looks at the flag starts one fan-out with its address, or none, as counted |
| Propagation.OvertakenReconcileKeepsAddress | src/controllers/dns_endpoint_ctrl.rs:144-155 | a reconcile under way patches with the address it has read, even when that has changed |
| Propagation.ChangesAreBounded | src/main.rs:303-317 | after the last change, with fan-outs still to be started and under way, the number of effective patches is bounded by a weight that never grows |
| Propagation.StaysRightIff | src/main.rs:186-199 | in every run, while the address stays, a right endpoint stays right iff no fan-out with another address can still reach it, under way or still to be started |
| Propagation.LateFanoutUndoes | src/main.rs:195-199 | a run from startup in which a late fan-out patches a right endpoint back to an earlier address |
| Soap.AddBodyRoundTrip | src/upnp/port_mapping.rs:61-79 | the entry reader applied to the request body returns all fields, for all ports, leases and `<`-free strings |
| Soap.BodyIsTagged | src/upnp/port_mapping.rs:61-79 | the body is one AddPortMapping element of WANIPConnection:1 with each argument under its own tag |
| Soap.RequestReadsBack | src/upnp/port_mapping.rs:61-79 | a spec's request reads back as the spec, with "TCP" or "UDP" |
| Soap.MissingFieldFails | src/upnp/port_mapping.rs:172-178 | an entry without port, protocol or client is refused |
| Soap.LargePortFails | src/upnp/port_mapping.rs:172-178 | so is one with a port above 65535 |
| Soap.CrossedTagsPanic | src/upnp/port_mapping.rs:189-198 | a closing tag that comes first makes the extraction panic |
| Soap.DefaultsApply | src/upnp/port_mapping.rs:179-185 | description, enabled and lease have defaults |
| Soap.RequestDeterminesEntry | src/upnp/port_mapping.rs:52-79 | two specs are written as the same request iff host, ports, protocol, effective description and lease agree |
| Soap.FieldIsExtracted | src/upnp/port_mapping.rs:189-198 | first-occurrence search finds the value of every field of a written body |
| RootDesc.ParseRootDesc | src/upnp/discovery.rs:108-181 | the loop over mutable buffers computes the fold over the events, or the error |
| RootDesc.LoopFindsLastServices | src/upnp/discovery.rs:108-181 | for documents whose services hold only leaves, the last service of each kind is found |
| RootDesc.GatewayAddresses | src/upnp/discovery.rs:143-170 | the gateway's addresses are those of the last service whose type mentions WANIPConnection, taken from the base where they begin with a slash |
| RootDesc.FallbackAddresses | src/upnp/discovery.rs:62-73 | without one, those of the last that mentions WANPPPConnection |
| RootDesc.UrlsComeFromOneService | src/upnp/discovery.rs:62-73 | over every event stream the control and event address were recorded together at the end of one service element of the preferred kind |
| RootDesc.BaseUrlIsSchemeAndHost | src/upnp/discovery.rs:95-106 | the base address is scheme and host, and taking it again changes nothing |
| RootDesc.BaseUrlWithoutScheme | src/upnp/discovery.rs:95-106 | an address without a scheme is its own base |

## Left out

- Sockets, HTTP, SOAP transport, SSDP, the Kubernetes client and the finalizer library: steps that can fail. A bound socket is a fresh number, and its port is whatever the operating system gives.
- Server-side apply: an upsert of label, the watcher's owner reference and spec; merging with other field managers is not modelled beyond keeping their owner references.
- Interleaving of two watcher passes with each other: a pass runs alone on the store, while the proxy table's interleavings are covered by `ProxyConcurrency`.
- Controller restart: timers and proxies are lost in a restart, and the model of leases has no such step.
- Watch-cache lag of the PortMapping controller: a reconcile reads the latest spec and status.
- An accept loop that ends by an accept error: its map entry stays; the model only follows which loops were told to stop.
- TCP byte copying and datagram contents: nothing is decided there.
- External address and conditions in a PortMapping's status: they are recorded and never read back.
- `active_port_mappings` as a count: it is incremented on every renewal, so it is not the number of active mappings.
- The GENA subscription loop: `main` never fills the subscription it renews.
- `list_port_mappings` and `parse_ssdp_location`: a query loop nobody calls and a line scan; they would add only easy members.
- JSON forms, logging, metrics rendering, configuration, node annotations and the GatewayStatus controller: plumbing.
- Stabilisation.SelfStabilises: does not say that a terminating object comes back, because a patch leaves it terminating; `LiveNamesAreDesired` gives the exact condition.
- Soap.AddBodyRoundTrip: reads the request body as written, without the envelope that the transport adds around it.
