# Verified core of the Amnezia client and headless daemon

A Dafny model of the parts of the Amnezia VPN client and its headless daemon that are hardest to get right,
with proofs of what they promise. `dafny verify dfyconfig.toml` checks the whole project.

- **Route algebra** (`Bits`, `Prefixes`, `HostSubtraction`, `RouteSplitting`, `RouteTexts`, `ManagedPolicy`,
  `AddressPolicy`, `RuntimeRoutes`, `BypassRoutes`). Server-managed routes are split around hosts that must stay inside the VPN,
  checked against a route policy, and brought into a normal form. The loops of the code are proved against
  declarative descriptions: maximal free blocks, exact coverage, fixed points.
- **Managed-route receipt** (`ManagedRouteReceipt`, `RouteSwap`, `RoutePublishing`, `RouteWorker`). The worker keeps a record of the managed
  routes it believes are installed. The service that installs them may answer partially, late or not at all, and
  callbacks of earlier connections may still be queued. The protocol is a state machine over the worker's slots,
  with the real content of the service as part of the state; `VpnWorker` is the worker as an object.
- **Keychain broker** (`KeychainGate`, `KeychainBroker`, `KeychainResults`). Callers, a worker thread and native jobs share a queue
  under one mutex. Every critical section is one step and steps interleave freely.
- **Migration journal** (`Generations`, `MigrationJournal`, `JournalOutcomes`, `RecoveryAuthorization`). A durable
  phase machine with a generation watermark; a crash may fall between any two saves. The recovery header adds a one-shot permission to repeat a
  generation after a confirmed cleanup.
- **Daemon ownership** (`DaemonOwnership`). Which of tunnel and routes the daemon owns in each state, what is
  really up, and exactly when something that arrives in a nested event loop can interfere.
- **Log uploader** (`LogUploader`, `LogPolls`) and **control replies** (`ControlReply`, `ReplyGrammar`). A durable
  cursor over a log file that others rotate, and a parser that is run again whenever more bytes arrive.

Objects whose methods update fields are classes; each method is proved to keep the object's invariant and to move it
exactly as a specification function says, and the properties of whole runs are lemmas about those functions. Inputs from
outside (service replies, network answers, clocks, file contents, signatures) are parameters of the steps, so
every statement about runs holds for all of them. For each main operation a lemma says exactly when it succeeds and how
it fails, in the fields of its inputs and of the state before it, without the functions that compute it.

Where the code does not keep a property everywhere, a lemma has a failing input and another the exact condition:

- Reporting an error or a disconnect clears the installed routes but keeps the receipt
  (`client/vpnConnection.cpp`, lines 890-898). The receipt is therefore true while connected, which is when it is
  read, and not beyond: `ReceiptOutlivesTeardown`, `TeardownKeepsReceiptIff`.
- Publishing normalises again, against the protected hosts of that moment. If a host has moved into a route of the
  batch since it was computed, the receipt misses that route: `ReceiptMissesMovedHost`, `PublishedExactly`.
- A control reply followed by surplus bytes is accepted or rejected depending on where the chunks were cut:
  `SurplusDependsOnCut`, `CompleteIffCutAtEnd`.
- A disconnect accepted in recovery forgets an open migration attempt, and the next connection tries the legacy
  profile beside what the candidate left (`headless/daemon.cpp`, lines 551-582, 901 and 938-942):
  `LegacyBesideCandidate`, `LegacyTriesCleanIff`, `OpenAttemptIff`, `ForgottenIff`. A restart into an offline window
  is a further way there: `RestartBesideCandidate`.
- Stopping the daemon takes no scope, so events that arrive during its two waits are handled inside it
  (`headless/daemon.cpp`, lines 300-322): `StopLosesRoutes`, `OwnershipMatchesState`, `InsideRoutes`,
  `NonReentrantIff`.
- Disconnected does not always mean that nothing is left: `DisconnectedOverRoutes`, `TidyIff`. And the health
  check, alone among the operations, takes an interface down before its routes: `StrandedIff`.
- After the keychain gate has closed, one native job may still start: `NativeAfterClosing`.
- A repeated migration trial always has a new nonce (`RepeatHasNewNonce`), but its grant is the server's choice and
  can be that of the trial before it, once a cleanup has retired credentials that were never tried: `GrantReturns`,
  `GrantReturnsIff`, `CleanupRetiresTried`.

## Model

| member | source | states |
|---|---|---|
| Prefixes.MaskedEnds | client/vpnConnection.cpp:309-321 | The mask expressions give the first and last address of the block at every prefix length from 0 to 32, and the block never leaves the 32-bit range. |
| Prefixes.OverlapIffSharedAddress | headless/headlessRoutingController.cpp:150-169 | The overlap test on two prefixes holds exactly when some address belongs to both. |
| Prefixes.ContainedIffContains | headless/headlessRoutingController.cpp:171-183 | Comparing masked addresses decides membership of an address in a prefix, both ways. |
| HostSubtraction.TrailingZeroBits | client/vpnConnection.cpp:351-363 | The shifting loop returns the exponent of the largest power of two that divides the value, and 32 for zero. |
| HostSubtraction.FittingHostBits | client/vpnConnection.cpp:371-377 | The shrinking loop ends at the largest block that is aligned at the current address and still fits the remaining range. |
| HostSubtraction.Ipv4RangeToRoutes | client/vpnConnection.cpp:365-383 | The loops terminate, also for the whole address space and for ranges ending at the last address, with the greedy decomposition of the range; an inverted range gives nothing. |
| HostSubtraction.GreedyTiles | client/vpnConnection.cpp:365-383 | The greedy decomposition is a gap-free, overlap-free sequence of aligned blocks from one end of the range to the other. |
| HostSubtraction.SubtractIpv4HostFromRoute | client/vpnConnection.cpp:385-408 | The masked bounds of the code produce the subtraction whose properties are the next two rows, for every prefix and host, inside or outside it. |
| HostSubtraction.SubtractHostPartition | client/vpnConnection.cpp:351-408 | Subtracting a contained host from a /p gives exactly 32-p pairwise disjoint routes that hold every address of the /p except the host. |
| HostSubtraction.SubtractHostComplete | client/vpnConnection.cpp:351-408 | A route is in the result if and only if it is the block next to the host on some level of the prefix tree below the /p. |
| RouteSplitting.SplitIsMaximalBlocks | client/vpnConnection.cpp:410-437 | Folding subtraction over any protected hosts yields precisely the maximal blocks of the route that contain no protected host. |
| RouteSplitting.MaximalBlocksCover | client/vpnConnection.cpp:410-437 | Any set of such maximal blocks covers exactly the addresses of the route that are not protected. |
| RouteSplitting.SplitOneRoute | client/vpnConnection.cpp:410-437 | Pieces of one /p route stay pairwise disjoint, cover the route minus the hosts, and with k hosts number at most 1 + k*(31-p) for p up to 31. |
| RouteSplitting.SplitOrderIrrelevant | client/vpnConnection.cpp:410-437 | Two orders of the same distinct hosts give the same multiset of pieces. |
| RouteTexts.CollectProtectedAddresses | client/vpnConnection.cpp:412-418 | The loop keeps each IPv4 literal among the hosts once and ignores host names. |
| RouteTexts.SubtractFromPieces | client/vpnConnection.cpp:427-431 | One pass of the inner loop replaces every piece by what is left of it without the host; texts that do not parse pass through. |
| RouteTexts.SplitOneText | client/vpnConnection.cpp:425-432 | All hosts in turn are removed from one route text. |
| RouteTexts.SplitRoutesKeepingHostsInVpn | client/vpnConnection.cpp:410-437 | The nested loops over routes, hosts and pieces compute the split that the coverage lemma is about, without duplicates. |
| RouteTexts.SplitCoverage | client/vpnConnection.cpp:410-437 | For any routes and any protected hosts, an address is covered afterwards exactly when it was covered before and is not protected. |
| RouteTexts.SplitKeepsUnparsed | client/vpnConnection.cpp:385-437 | A text that is no IPv4 route survives the split unchanged, and the split invents none. |
| RouteTexts.NormalizedSupportedIpv4Routes | client/vpnConnection.cpp:329-349 | The loop returns each canonical route once in first-seen order and reports unsupported texts exactly when there are some. |
| ManagedPolicy.ValidatedManagedRoutes | client/core/utils/managedRoutePolicy.h:252-279 | A batch is accepted as a whole or not at all: within the size limit and with only allowed routes, and then returned without duplicates. |
| ManagedPolicy.AllowedInside | client/core/utils/managedRoutePolicy.h:166-204 | Every canonical block inside an allowed route is allowed, so splitting never takes a managed list out of the policy. |
| AddressPolicy.AllowedIff | client/core/utils/managedRoutePolicy.h:166-204 | A route may be managed if and only if it is not everything, has no bit set below its prefix, reaches none of the listed special addresses, and is a /16 or narrower or reaches private addresses only; stated on addresses, not on the ranges of the code. |
| RuntimeRoutes.DropOwned | client/vpnConnection.cpp:622-627 | The filter loop keeps, in order, what no local rule owns. |
| RuntimeRoutes.NormalizedManagedRoutesForRuntime | client/vpnConnection.cpp:580-633 | The method returns the normalisation that the following rows characterise, and an empty list with a cleared flag on every rejection. |
| RuntimeRoutes.NormalizeUnfolded | client/vpnConnection.cpp:580-633 | For a valid batch the pieces after splitting are all allowed, so the second validation and the unsupported-route test can only fail on the size limit. |
| RuntimeRoutes.NormalizeValidIff | client/vpnConnection.cpp:580-633 | In all-except mode a batch is accepted exactly when it is valid and its split pieces stay within the route limit. |
| RuntimeRoutes.NormalizeSound | client/vpnConnection.cpp:580-633 | The result is sorted, allowed and disjoint from local ownership, covers no protected host, and together with the local routes covers exactly (managed minus protected) plus local. |
| RuntimeRoutes.NormalizeFixpointIff | client/vpnConnection.cpp:580-633 | Republishing an installed list returns that same list if and only if no protected host lies inside it and no local rule owns one of its routes. |
| RuntimeRoutes.NormalizeIdempotent | client/vpnConnection.cpp:580-633 | Normalising a normalised list changes nothing, in every mode. |
| BypassRoutes.ContainmentTest | headless/headlessRoutingController.cpp:399-411 | The test by prefix length and overlap holds exactly when the whole server route lies inside the forward route. |
| BypassRoutes.DropSwallowed | headless/headlessRoutingController.cpp:379-416 | The first loop keeps the server routes that touch no forward route and stops exactly when one touches a forward route without lying inside one. |
| BypassRoutes.AllExceptBypassRoutes | headless/headlessRoutingController.cpp:368-457 | Exact validity condition; when valid, no bypass route shares an address with a forward route, every parseable server route disjoint from all forward routes is kept, nothing else is added, and the critical routes are exactly the endpoint hosts outside the forward routes and a subset of the result. |
| ManagedRouteReceipt.BatchRoundTrip | client/vpnConnection.cpp:1300-1390 | Republished against any hosts and local rules that claim none of its routes, a batch normalises to exactly the list that was installed. |
| ManagedRouteReceipt.OwnHostsHarmless | client/vpnConnection.cpp:1300-1333 | The hosts a batch was computed for claim none of its routes, so only a change of hosts can make a difference. |
| ManagedRouteReceipt.InstallTruth | client/vpnConnection.cpp:1356-1390 | On a cleared service, the callback of a batch publishes what was installed, or publishes nothing. |
| ManagedRouteReceipt.UpdateEffect | client/vpnConnection.cpp:1545-1666 | Whatever an in-place update reports as done has reached its target exactly, and whatever it reports as needing a reconnect has sent nothing; it never removes a route. |
| RouteSwap.UpdateIff | client/vpnConnection.cpp:1545-1666 | The update is done if and only if there is nothing to change, or there is nothing to remove, at most 256 routes to add, the gateway is in order and the service confirms all of them; it is uncertain if and only if the service was asked and answered in part; it is deferred if and only if a lookup is pending. What was sent is exactly the difference, or the confirmed part of it. |
| ManagedRouteReceipt.ReceiptTruth | client/vpnConnection.cpp:635-716 | In every run, with partial additions, failed clears, late DNS callbacks and rejected requests, a receipt held while connected lists exactly the installed managed routes, unless a batch was published after the protected hosts, or local rules, had come to claim one of its routes; any receipt is bound to the current epoch, server and mode, and to a policy identity if it lists anything. |
| ManagedRouteReceipt.TeardownKeepsReceiptIff | client/vpnConnection.cpp:890-898 | An error or disconnect reported in any state clears the service but keeps the receipt; exactly when the two still agree afterwards, and from Connected exactly when the list was empty or the failed clear removed none of it. |
| ManagedRouteReceipt.ReceiptOutlivesTeardown | client/vpnConnection.cpp:890-898 | For every allowed route, a four-step run that ends with a receipt for that route and an empty service. |
| ManagedRouteReceipt.PublishedExactly | client/vpnConnection.cpp:650-716 | A complete batch published after the protected hosts moved is recorded truthfully if and only if no host protected now lies in an installed route and no local rule owns one now. |
| ManagedRouteReceipt.ReceiptMissesMovedHost | client/vpnConnection.cpp:650-716 | For every allowed route up to /31 and every address in it, a four-step run in which the host moves into the route between announcement and delivery and the worker ends connected with a receipt that differs from the service. |
| ManagedRouteReceipt.RunFollows | client/vpnConnection.cpp:635-648 | Epoch, base revision and accepted request generation never decrease, and queued batches keep the epoch they were captured in. |
| ManagedRouteReceipt.LateCallbackHarmless | client/vpnConnection.cpp:1357-1361 | In every run, a callback captured before an epoch change leaves the receipt and the service untouched, however late it arrives. |
| ManagedRouteReceipt.StaleRequestIgnored | client/vpnConnection.cpp:1696-1729 | A request with an old generation, another epoch or server, or outside Connected changes nothing but the recorded generation. |
| ManagedRouteReceipt.ReconcileSwaps | client/vpnConnection.cpp:1676-1894 | In every run, the service is touched only for a request naming the exact base held and with no local lookup pending, at most 256 routes are added and none removed in place, and a new base is the desired list and, with the exception of ReceiptTruth, is what is installed. |
| RouteSwap.RunListed | client/vpnConnection.cpp:650-716 | In every run, a receipt that is held lists allowed routes in ascending order, at most 4096, and none outside the all-except mode. |
| RouteSwap.SwapIff | client/vpnConnection.cpp:1762-1863 | Over every run: a request for the running connection that names the held receipt and wants another list succeeds if and only if no lookup is pending, no installed route would have to go, at most 256 are added, the gateway is in order and the service confirms all; then exactly the difference was added and the receipt names the new list and policy. The receipt is dropped if and only if the answer was partial. Otherwise receipt and service are unchanged, and a pending lookup makes the worker reconnect later. |
| RouteSwap.RenewIff | client/vpnConnection.cpp:1732-1790 | Over every run: a request that wants the very list held renews the receipt under its own policy and sends nothing; one that neither wants the held list nor names the held receipt leaves receipt and service alone. |
| RouteSwap.Decision | client/vpnConnection.cpp:1696-1815 | Which of the four verdicts a request gets, from its fields and the held receipt. |
| RoutePublishing.DeliveredIff | client/vpnConnection.cpp:1354-1390 | The callback of a batch, exactly: when it does anything, what it sends, and that it publishes if and only if the batch may be confirmed, the service took everything, the list normalises, the policy fits and the last clear was confirmed. |
| RoutePublishing.AnnouncedIff | client/vpnConnection.cpp:900-922 | The first report of Connected, exactly: without site rules the receipt is published if and only if the startup snapshot is for this server and mode, lists nothing, has a sound identity, and the last clear was confirmed; with site rules one batch or one timer is queued. |
| RoutePublishing.ReportedIff | client/vpnConnection.cpp:3095-3118 | Any other report, exactly: the receipt stays, a disconnect or error has the service cleared, and a worker that is reconnecting does not become disconnected. |
| RoutePublishing.GivenUpIff | client/vpnConnection.cpp:2022-2043 | Connecting, reconnecting and disconnecting, exactly: new epoch, receipt and queued work dropped, service asked to clear, and the resulting state; outside Connected a reconnect does nothing. |
| RoutePublishing.TimedIff | client/vpnConnection.cpp:850-862 | A delayed start queues a batch if and only if it was set for this epoch and server and the worker is connected. |
| RoutePublishing.FlushedIff | client/vpnConnection.cpp:1161-1242 | A due reconnect renews the receipt if and only if the prepared policy is the one applied here, and drops it then exactly if its identity does not fit or the last clear was not confirmed. |
| RoutePublishing.AllAnswered | client/vpnConnection.cpp:1398-1481 | Once every lookup of its local domains is answered a batch is ready, and leaves out everything that was resolved. |
| RoutePublishing.ConnectPublishes | client/vpnConnection.cpp:1261-1396 | After every run: connecting over a confirmed clear, a report of Connected, an answer to each local lookup and a full answer of the service end with exactly the normalised policy, without what the lookups resolved to, installed and in the receipt. |
| ManagedRouteReceipt.RunInv | client/vpnConnection.cpp:1261-1894 | Every interleaving of connects, reports, timers, lookups, callbacks and requests keeps the receipt invariant: at most one batch per epoch can still install, and only before anything was sent or published. |
| RouteWorker.VpnWorker.PublishManagedRouteBase | client/vpnConnection.cpp:650-696 | The receipt becomes the normalised list only with a confirmed batch, a valid list, a fitting policy identity, a confirmed teardown and a server; otherwise it is dropped. |
| RouteWorker.VpnWorker.AddSitesRoutes | client/vpnConnection.cpp:1261-1396 | Captures the batch of the protocol: routes after both validations and the split, local ownership, and the two new generations. |
| RouteWorker.VpnWorker.StartManagedRoutes | client/vpnConnection.cpp:1354-1390 | The callback checks generation, state, server and gateway, installs what no local rule owns, and publishes according to the reply; afterwards the receipt is exact, and a new one exists only on a service whose clear was confirmed. |
| RouteWorker.VpnWorker.UpdateManagedRoutes | client/vpnConnection.cpp:1485-1666 | The incremental update, with its result stated on sets of routes: done, uncertain or untouched exactly as in UpdateIff, and on success exactly the difference has been added. |
| RouteWorker.VpnWorker.Judge | client/vpnConnection.cpp:1696-1790 | Ignored, refused, already applied or to be attempted: the checks of the request against binding, base, revision, hosts and local context decide before anything is touched. |
| RouteWorker.VpnWorker.ReconcileManagedRoutes | client/vpnConnection.cpp:1676-1863 | Compare and swap: the invariant is kept, routes are only added and only for a request that names the base held, and a request that changes the receipt leaves it exact and under the identity it asked for. |
| RouteWorker.VpnWorker.ConnectToVpn | client/vpnConnection.cpp:2022-2043 | Keeps the invariant; the epoch is strictly larger, no receipt is held, no batch queued so far can publish any more, and a confirmed clear means that nothing is installed. |
| RouteWorker.VpnWorker.ReconnectToVpn | client/vpnConnection.cpp:2725-2747 | Outside Connected nothing changes; from Connected the epoch is strictly larger, the receipt is gone and every queued batch is superseded. |
| RouteWorker.VpnWorker.DisconnectFromVpn | client/vpnConnection.cpp:2905-2912 | Keeps the invariant; the epoch is strictly larger, no receipt is held, every queued batch is superseded, and a confirmed clear means that nothing is installed. |
| RouteWorker.VpnWorker.AboutToExit | client/vpnConnection.cpp:3050-3085 | Leaves no receipt and no batch that could publish; without a disconnect what is installed stays as it is. |
| RouteWorker.RetiredForgets | client/vpnConnection.cpp:1100-1108 | Moving epoch and generations keeps the invariant and leaves every queued batch with a smaller generation. |
| RouteWorker.VpnWorker.SetConnectionState | client/vpnConnection.cpp:3095-3118 | A report keeps the invariant and leaves the receipt exact; outside Connected the receipt is left alone, even when the service is cleared, and a disconnect while reconnecting is ignored. |
| RouteWorker.VpnWorker.SitesTimerFired | client/vpnConnection.cpp:850-862 | The delayed start: a timer of an earlier epoch starts nothing, and no timer touches the receipt or the service. |
| RouteWorker.VpnWorker.LookupAnswered | client/vpnConnection.cpp:1398-1481 | A DNS answer never touches the receipt or the service, and one of an earlier resolution touches nothing. |
| RouteWorker.VpnWorker.LookupDeadlinePassed | client/vpnConnection.cpp:551-562 | The deadline of local lookups keeps the invariant, the receipt and the service. |
| RouteWorker.VpnWorker.RebuildManagedRoutes | client/vpnConnection.cpp:771-784 | A rebuild asked for by this very connection drops the receipt under a new revision; any other changes nothing. |
| RouteWorker.VpnWorker.FlushReconnect | client/vpnConnection.cpp:1161-1242 | A due reconnect that finds the prepared policy applied only renews the receipt: the same routes, still exact, and the service untouched. |
| RouteWorker.VpnWorker.Drive | client/vpnConnection.cpp:635-716 | A whole sequence of slots is a run of the protocol, at the end of which the receipt is exact. |
| RouteWorker.VpnWorker.OnConnected | client/vpnConnection.cpp:900-922 | Starts the site routes, arms the delayed start, or publishes the startup list, depending on the mode. |
| RouteWorker.PlanRoutes | client/vpnConnection.cpp:1300-1333 | Validate, split, validate again and filter, emptying the list whenever a check fails. |
| RouteWorker.SupportedAgain | client/vpnConnection.cpp:1322-1333 | The last filter never removes a route that passed the policy. |
| KeychainGate.KeychainBrokerGate.constructor | client/secureQSettings.h:68-73 | A negative capacity counts as zero; nothing is active or waiting. |
| KeychainGate.KeychainBrokerGate.AdmitOperation | client/secureQSettings.h:75-97 | Refused, queued or started, with a fresh id exactly when admitted; full new state of the gate. |
| KeychainGate.KeychainBrokerGate.CompleteAndStartNext | client/secureQSettings.h:99-113 | Only the active id completes, and the head of the queue follows unless the gate is closed. |
| KeychainGate.KeychainBrokerGate.BeginOperation | client/secureQSettings.h:115-127 | Starts only on an idle, open gate. |
| KeychainGate.KeychainBrokerGate.DeadlineExceeded | client/secureQSettings.h:134-144 | Closes the gate for a live id and ignores any other. |
| KeychainGate.ClosedIsInert | client/secureQSettings.h:146-150 | After the gate has failed closed, whatever calls follow, no id is issued, nothing is queued or started, and the active id only ever ends. |
| KeychainGate.KeychainBrokerGate.BeginShutdown | client/secureQSettings.h:152-161 | Closes the gate on the first call and reports later calls. |
| KeychainGate.KeychainBrokerGate.IssueOperationId | client/secureQSettings.h:182-189 | The 64-bit counter advances and skips zero when it wraps. |
| KeychainGate.GateRunInv | client/secureQSettings.h:65-198 | Every sequence of gate calls: the queue respects its bound, is empty when nothing is active or the gate is closed, and the live ids of an open gate are the most recently issued run. |
| KeychainGate.LiveIdsDistinct | client/secureQSettings.h:75-113 | Until the gate fails closed the live ids are non-zero and pairwise distinct, even when the counter wraps. |
| KeychainBroker.FailQueue | client/secureQSettings.cpp:319-333 | The draining loop ends each waiting operation that is not finished, once, in queue order, and touches no other. |
| KeychainBroker.SharedBroker.FailPendingLocked | client/secureQSettings.cpp:319-333 | Empties the queue and fails what was waiting. |
| KeychainBroker.SharedBroker.FailActiveDispatchLocked | client/secureQSettings.cpp:297-317 | Closes the gate, ends the operation and everything waiting. |
| KeychainBroker.SharedBroker.Enter | client/secureQSettings.cpp:118-165 | Recursive calls close the broker and give everyone waiting the fail-closed result; otherwise refused, queued or made active. The caller is refused exactly when no operation was added, with the status that names the reason; an operation whose start call cannot be posted has the dispatch-failed result. |
| KeychainBroker.SharedBroker.DeadlineReached | client/secureQSettings.cpp:167-188 | Keeps the broker invariant; a result that is there is kept, otherwise the caller has the deadline result, the gate is closed and the queue empty. |
| KeychainBroker.SharedBroker.StartOperation | client/secureQSettings.cpp:199-212 | A start call reaching the worker passes its check, under the mutex, exactly if the operation is not cancelled, and otherwise makes room. |
| KeychainBroker.SharedBroker.StartJob | client/secureQSettings.cpp:213-251 | With the mutex released the native job of a checked call starts, also if its caller has given up in between; the invariant is kept. |
| KeychainBroker.SharedBroker.FinishOperation | client/secureQSettings.cpp:258-275 | A report finishes its operation with this status, or with the result it was ended with before; if the next start call cannot be posted, that operation has the dispatch-failed result and those behind it the fail-closed one. The invariant is kept. |
| KeychainBroker.SharedBroker.AdvanceLocked | client/secureQSettings.cpp:275-294 | The next operation named by the gate is started, or a mismatch of the queues closes the broker. |
| KeychainBroker.SharedBroker.BeginShutdown | client/secureQSettings.cpp:335-355 | After any shutdown the gate is closed and the queue empty; after the first one every operation that was unfinished has the shutting-down result, and every finished one keeps its own. |
| KeychainBroker.StepInv | client/secureQSettings.cpp:118-355 | Every critical section of callers, worker thread and jobs keeps the broker invariant: equal queues in gate and broker, one outstanding start call or job, promotion in admission order, exact bookkeeping of results. |
| KeychainBroker.BrokerSerial | client/secureQSettings.cpp:118-355 | However the steps interleave: one operation at a time, in admission order, and nothing waits while none is active; the mismatch branches and the unknown-deadline branch are never taken; each result is written exactly once; only a closed gate cancels; nobody waits for a lost operation. |
| KeychainBroker.FailuresClose | client/secureQSettings.cpp:297-355 | A failed dispatch and a shutdown leave the gate closed. |
| KeychainBroker.ClosedForGood | client/secureQSettings.cpp:118-355 | Once the gate is closed, no continuation admits or promotes an operation, and recorded results never change. |
| KeychainBroker.DeadlinePoisons | client/secureQSettings.cpp:171-188 | After a missed deadline, in every continuation: its caller has the deadline result, every other waiting caller has the fail-closed result, nothing is made active again, and no native job starts except that of another operation whose start call was on its way, or of any whose start call had passed its check. |
| KeychainBroker.NativeAfterClosing | client/secureQSettings.cpp:199-251 | Once closed, at most one more native job starts in any continuation, only for the operation active at closing, and one can start if and only if its start call has passed its check, or is outstanding and the operation not cancelled. |
| KeychainBroker.StepResults | client/secureQSettings.cpp:118-355 | One step of any thread: which result each open operation gets, from its place in the broker, and that every other keeps what it has. |
| KeychainResults.NativeResultIff | client/secureQSettings.cpp:213-275 | Over every interleaving: an operation has success, not found or backend error as its result if and only if its own native job reported just that before the operation was cancelled; every other result was given by the broker. |
| KeychainResults.FirstShutdownEnds | client/secureQSettings.cpp:335-355 | After the first shutdown, in every continuation, each operation that was unfinished has the shutting-down result, each finished one keeps its own, and none is added. |
| KeychainResults.DispatchFailsIdle | client/secureQSettings.cpp:297-317 | A caller that finds the broker idle and whose start call cannot be posted has the dispatch-failed result in every continuation. |
| KeychainResults.DispatchFailsNext | client/secureQSettings.cpp:275-317 | If the start call of the next operation cannot be posted, then in every continuation that one has the dispatch-failed result, all behind it the fail-closed one, and the one that reported what its job said, or the result it was ended with before. |
| KeychainResults.WorkerCallEnds | client/secureQSettings.cpp:118-135 | A call on the worker thread itself gives everyone waiting the fail-closed result, in every continuation. |
| KeychainResults.AdmittedIff | client/secureQSettings.cpp:136-165 | Over every run a caller is admitted if and only if the broker is open and idle or its queue has room; it becomes active at once or waits last, and a refused one changes nothing. |
| KeychainResults.TurnPasses | client/secureQSettings.cpp:258-294 | Over every run a report hands the turn to the head of the queue, and to nobody if the queue is empty or the start call cannot be posted. |
| KeychainResults.ClosedIff | client/secureQSettings.cpp:118-355 | Over every run the broker is closed if and only if it was called on its worker thread, a start call could not be posted, a deadline passed for an open operation, or it was shut down. |
| MigrationJournal.AwgMigrationManager.LoadJournal | headless/awgMigrationManager.cpp:124-163 | Accepts exactly a whole watermark in range; an interrupted attempt becomes committed if it came from there and rolled back otherwise, and nothing else changes. |
| MigrationJournal.AwgMigrationManager.Candidate | headless/awgMigrationManager.cpp:423-447 | True exactly for a staged or committed journal whose source and candidate files are readable and unchanged, whose envelope still yields its offer, and, if staged, whose offer has not expired; retires a staged offer exactly when its source changed or its time is up. |
| MigrationJournal.AwgMigrationManager.BeginTrial | headless/awgMigrationManager.cpp:448-455 | On success the watermark covers the generation about to be tried, and reloading the journal takes the attempt back to committed or rolled back; on failure nothing changed. |
| MigrationJournal.AwgMigrationManager.Verify | headless/awgMigrationManager.cpp:456-492 | Passes on parameters alone when resuming from committed, and otherwise exactly with an unexpired signed receipt that agrees with the offer in server, peer, container, generation, challenge nonce and host address, a handshake and a save; then the receipt is stored. |
| MigrationJournal.AwgMigrationManager.Commit | headless/awgMigrationManager.cpp:493-501 | Commits only with an unchanged source, and owes an acknowledgement unless it was committed before. |
| MigrationJournal.AwgMigrationManager.Abandon | headless/awgMigrationManager.cpp:502-507 | On success the journal offers no candidate for any state of the files, and the watermark is kept. |
| MigrationJournal.AwgMigrationManager.Acknowledge | headless/awgMigrationManager.cpp:522-572 | The saves made while acknowledging, renewing an expired grant first. |
| MigrationJournal.AwgMigrationManager.Enroll | headless/awgMigrationManager.cpp:332-345 | Acknowledges a committed journal, keeps a usable offer, otherwise retires and stages anew. |
| MigrationJournal.AwgMigrationManager.StageOffer | headless/awgMigrationManager.cpp:346-422 | Stages an offer only after every check against grant, pinned signer, signature, watermark, staged target and binding. |
| MigrationJournal.AwgMigrationManager.Attempt | headless/daemon.cpp:879-947 | A connection attempt ends with the journal that its sequence of saves describes, in the order candidate, begin, verify, commit, acknowledge, or roll back. |
| MigrationJournal.AttemptCommitsIff | headless/daemon.cpp:901-917 | An attempt on a staged offer ends committed if and only if its files and envelope are as staged, it has not expired, it is begun, connects and applies its parameters, an unexpired receipt agrees with the offer in every field, the handshake is there, the source is unchanged at the end, and all saves succeed. |
| MigrationJournal.ReceiptSpelledOut | headless/awgMigrationManager.cpp:470-492 | The receipt check holds if and only if server, peer, container, generation and challenge nonce agree and the receipt names what stands in front of the slash of the client address. |
| MigrationJournal.StagesIff | headless/awgMigrationManager.cpp:346-422 | Staging writes a journal if and only if the exchange succeeded under the pinned key with a usable grant and the envelope yields an unexpired offer for this binding with a whole generation above the watermark, not below the staged one, and with the same digest if equal; and what it writes. |
| MigrationJournal.AcknowledgesIff | headless/awgMigrationManager.cpp:522-572 | The server is told about an offer if and only if a committed journal owes it, the parameters are applied and the grant is current or renewed by a document that agrees in every field; the flag is cleared if and only if it then acknowledges and the save succeeds. |
| JournalOutcomes.AttemptEndsIff | headless/daemon.cpp:879-947 | For every journal, which phase an attempt ends in: committed if it works, rolled back or still open if it does not, expired or untouched if it cannot begin; a begun attempt raises the watermark to its generation. |
| JournalOutcomes.EnrolEndsIff | headless/awgMigrationManager.cpp:332-345 | For every journal, what an enrolment does: acknowledge a committed one, keep an offer that can be used, retire one that cannot before staging, and stage otherwise. |
| MigrationJournal.SafePrefix | headless/awgMigrationManager.cpp:104-123 | If every save of an operation is safe, the journal is sound wherever a crash cuts the operation off. |
| MigrationJournal.StageInv | headless/awgMigrationManager.cpp:322-331 | Staging keeps all records: the new generation is above the watermark and not below the staged one, and the same generation means the same target digest. |
| MigrationJournal.StepInv | headless/awgMigrationManager.cpp:124-572 | Every operation, cut off by a crash after any of its effects and followed by a load, keeps the journal invariant. |
| MigrationJournal.JournalHistory | headless/awgMigrationManager.cpp:322-331 | Over every run with crashes: a trial from the staged phase uses a generation above all earlier trials; staged generations never decrease and equal ones carry the same digest; start-up never rejects the journal; the watermark bounds all trials. |
| MigrationJournal.CommittedIsProven | headless/awgMigrationManager.cpp:147-160 | In every reachable journal, committed, or trying again from committed, implies a stored receipt that agrees with its own signed offer in server, peer, container, generation, challenge nonce and host address, and a cleared flag implies that the server acknowledged it. |
| MigrationJournal.WatermarkMonotone | headless/awgMigrationManager.cpp:155-160 | Between any two points of any run the watermark does not fall, the pinned signer does not change, and no history is lost. |
| RecoveryAuthorization.RefusedUntilRefreshed | client/core/controllers/awgMigrationController.cpp:252-283 | After a trial or a cleanup, in every run, nothing is tried until credentials are enrolled again. |
| RecoveryAuthorization.SpentUntilCleanup | common/awgMigrationRecovery.h:99-105 | A trial spends the authorization: in every run, until the next cleanup, each further trial has a generation above all earlier ones. |
| RecoveryAuthorization.AllowedOnlyIfRenewed | common/awgMigrationRecovery.h:28-87 | Whatever happened to the journal since the cleanup, an allowed repeat has the same generation, target digest, source and signer, and a nonce and a grant of other hashes. |
| RecoveryAuthorization.AllowedIff | common/awgMigrationRecovery.h:28-98 | On the journal a cleanup left, exactly which offers and credentials its authorization admits, field by field. |
| RecoveryAuthorization.CreatedIff | common/awgMigrationRecovery.h:28-52 | A cleanup yields an authorization if and only if every field of the ended attempt is there and agrees. |
| RecoveryAuthorization.AdmittedIff | common/awgMigrationRecovery.h:53-88 | Whatever happened to the journal since, an authorization admits an offer if and only if the ended attempt was whole and token, epoch, source, signer, generation and target are still those, with another nonce and grant by hash. |
| RecoveryAuthorization.TriedIff | client/core/controllers/awgMigrationController.cpp:252-283 | In every run, a trial is made if and only if credentials are enrolled for this source, the offer answers the nonce at hand, and its generation is new or the unspent authorization of the last cleanup admits it; and what it records. |
| RecoveryAuthorization.CleanedIff | client/core/controllers/awgMigrationController.cpp:183-206 | A cleanup counts if and only if it is new and an attempt has ended; it takes the credentials away and grants an authorization exactly for a whole attempt. |
| RecoveryAuthorization.RecoveryIsOneShot | common/awgMigrationRecovery.h:28-105 | In every run, a trial of a generation that is not new follows a cleanup later than every earlier trial, and uses credentials other than the ones that cleanup retired. |
| RecoveryAuthorization.RepeatHasNewNonce | client/core/controllers/awgMigrationController.cpp:479-491 | In every run, without any condition, the nonce of a repeated trial is that of no earlier trial. |
| RecoveryAuthorization.GrantReturnsIff | client/core/controllers/awgMigrationController.cpp:183-206 | At a cleanup that grants an authorization: some continuation repeats the grant of the last trial on it if and only if the grant the cleanup retires is another one, by hash. |
| RecoveryAuthorization.GrantReturns | client/core/controllers/awgMigrationController.cpp:175-206 | A run with three different nonces in which it happens: a cleanup failure over untried credentials, a cleanup that retires those, and the server issuing the first grant again. |
| RecoveryAuthorization.CleanupRetiresTried | client/core/controllers/awgMigrationController.cpp:175-206 | In every run in which no cleanup failure is reported over credentials still to be tried, what a cleanup retires is the grant of the last trial. |
| DaemonOwnership.HeadlessDaemon.Await | headless/daemon.cpp:37-63 | Whatever commands and timers a nested event loop delivers during a mutation, nothing changes. |
| DaemonOwnership.HeadlessDaemon.Dispatch | headless/daemon.cpp:488-504 | Any event that arrives during a mutation has no effect; otherwise it runs in its own scope, which is released afterwards, keeps the invariant and the match of ownership and state, and ends connected exactly as ConnectedIff says. |
| DaemonOwnership.HeadlessDaemon.Perform | headless/daemon.cpp:505-582 | What each command and timer does to state and ownership. |
| DaemonOwnership.HeadlessDaemon.EnsureHealthy | headless/daemon.cpp:778-818 | A dead session is taken down, backend first, and a failure at either step is recorded. |
| DaemonOwnership.HeadlessDaemon.Disconnect | headless/daemon.cpp:551-582 | Routes before the interface; a failed step keeps its owner. |
| DaemonOwnership.HeadlessDaemon.ConnectManagedProfile | headless/daemon.cpp:879-954 | Candidate first, legacy only after the candidate is retired and rolled back. |
| DaemonOwnership.HeadlessDaemon.ConnectLegacy | headless/daemon.cpp:885-900 | Succeeds if and only if the backend connects and routing is in order, or degraded without asking for recovery; then session, interface, routes and both owners are there. |
| DaemonOwnership.HeadlessDaemon.ConnectCandidate | headless/daemon.cpp:904-943 | A candidate that fails to come up must have left nothing native. |
| DaemonOwnership.HeadlessDaemon.RouteAndVerify | headless/daemon.cpp:908-923 | Route, verify, commit, or go on to retire the candidate. |
| DaemonOwnership.HeadlessDaemon.Retire | headless/daemon.cpp:924-937 | Retires routes, then the interface, and stops in recovery when either fails. |
| DaemonOwnership.HeadlessDaemon.ShutDown | headless/daemon.cpp:300-322 | Stopping, with the events of both its waits handled there and then: the invariant is kept, and ownership matches the state afterwards if and only if no connection accepted and routed in the second wait keeps its routes to the end of it. |
| DaemonOwnership.HeadlessDaemon.StartAgain | headless/daemon.cpp:142-238 | A new process after a crash: it starts with nothing owned, no attempt open and no interface up, or it does not run. |
| DaemonOwnership.HeadlessDaemon.Drive | headless/daemon.cpp:142-582 | A whole run of commands, timers, stops and restarts is a run of the specification, with ownership and legacy attempts as the lemmas below say. |
| DaemonOwnership.ConnectInv | headless/daemon.cpp:535-541 | A connection adopted by its caller keeps the invariant and the match of ownership and state; the legacy attempt it may make is clean exactly if no attempt is open and no routes of a candidate are held. |
| DaemonOwnership.CandidateEffect | headless/daemon.cpp:904-943 | A candidate attempt ends with everything owned and committed, or in recovery, or retired with no session, no owner and no interface of its own. |
| DaemonOwnership.LegacyTriesCleanIff | headless/daemon.cpp:879-954 | Over every run, with stops and the events inside them, crashes and restarts: the legacy profile is tried only with no attempt open and nothing of a candidate up, if and only if no connection is accepted while an attempt is open, or over routes of a candidate that nothing on the way removes. |
| DaemonOwnership.OpenAttemptIff | headless/daemon.cpp:879-954 | The same over every run whose stops are not disturbed and whose restarts carry no routes of a candidate over; the one condition is that no connection is accepted while disconnected with the attempt in the journal neither committed nor rolled back. |
| DaemonOwnership.ForgottenIff | headless/daemon.cpp:551-582 | With clean attempts so far, an event leaves the daemon disconnected over an open attempt exactly if it is a disconnect accepted over one, with the cleanups it has to make succeeding. |
| DaemonOwnership.ForgottenIsReckless | headless/daemon.cpp:879-901 | From there every connection that is accepted makes an unclean legacy attempt. |
| DaemonOwnership.RecklessIffForgotten | headless/daemon.cpp:879-901 | As long as ownership matches the state and no routes of a candidate are without an owner, an open attempt is all a connection has to fear. |
| DaemonOwnership.ClosedAttemptsClean | headless/daemon.cpp:551-582 | If in such a run no disconnect forgets an open attempt, every legacy attempt is clean. |
| DaemonOwnership.LegacyBesideCandidate | headless/daemon.cpp:938-942 | Two failing runs from the first start: a candidate in recovery, a disconnect, a connect, and the legacy profile is tried beside the interface, or the routes, of the candidate. |
| DaemonOwnership.RestartBesideCandidate | headless/daemon.cpp:212-238 | A failing run through a restart: the attempt is read back as rolled back, and the legacy profile is tried over the routes of the candidate in the offline window. |
| DaemonOwnership.RestartedInv | headless/daemon.cpp:142-238 | However a process ended, the next one does not run, or starts with nothing owned, no attempt open and no interface up, over routes only in an offline window. |
| DaemonOwnership.OwnershipMatchesState | headless/daemon.cpp:494-582 | Over every run, after each command, timer, stop and restart, connected means both owners and a session and disconnected means none of them, if and only if there is no stop that gets through with a connection accepted and routed in its second wait and nothing later in that wait removing the routes. |
| DaemonOwnership.InsideRoutes | headless/daemon.cpp:300-322 | Any events handled inside a stop: routes are owned at the end if and only if an accepted and routed connection brought some, or some were owned, and no later disconnect or health cleanup removed them. |
| DaemonOwnership.ConnectedIff | headless/daemon.cpp:505-582 | For every daemon with the invariant and every event: connected afterwards if and only if it was and the event finds nothing wrong, or a connect is accepted without a session and its candidate connects, routes, verifies and commits, or the legacy branch is reached, connects, and its routing is in order or degraded without recovery. |
| DaemonOwnership.DisconnectedIff | headless/daemon.cpp:551-582 | Disconnected afterwards, exactly: a disconnect that releases every owner, a connect that fails without a trace, a dead session cleaned up, or nothing to change. |
| DaemonOwnership.CleanupFailedIff | headless/daemon.cpp:551-582 | A failed cleanup afterwards, exactly: a release that failed in a disconnect, after a dead session, or after legacy routing. |
| DaemonOwnership.RecoveryRequiredIff | headless/daemon.cpp:901-954 | In need of recovery afterwards, exactly: before and not told to disconnect, a refresh or the start timer asking for it, or a begun candidate attempt after which nothing works. |
| DaemonOwnership.JournalIff | headless/daemon.cpp:901-954 | The phase of the journal after every event: committed, rolled back or still open after a begun candidate, staged after the migration timer, unchanged otherwise. |
| DaemonOwnership.RestartedIff | headless/daemon.cpp:142-238 | A process starts again if and only if its files are accepted, no interface is left, and no routes or those of an offline window; an open attempt, also one it died in, goes back to where it came from. |
| DaemonOwnership.StoppedIff | headless/daemon.cpp:300-322 | A stop ends disconnected if and only if every release it has to make succeeds, and with a failed cleanup otherwise. |
| DaemonOwnership.HandledRoutes | headless/daemon.cpp:505-582 | One event leaves routes owned if and only if a connect is accepted without a session and ends routed, by the answers of its calls, or some were owned and neither a health cleanup nor a disconnect removes them. |
| DaemonOwnership.StopWithoutConnect | headless/daemon.cpp:300-322 | A stop during whose second wait no connection is asked for ends with ownership matching the state. |
| DaemonOwnership.StopLosesRoutes | headless/daemon.cpp:300-322 | The failing stop, from every connected daemon: a connect command handled in its second wait leaves it disconnected with routes owned, one operation having been performed inside another. |
| DaemonOwnership.NonReentrantIff | headless/daemon.cpp:37-63 | Over every run, counting operations performed while another is in progress, there is none if and only if nothing arrives while a stop waits. |
| DaemonOwnership.QuietStopDisconnects | headless/daemon.cpp:300-322 | A stop during which nothing arrives does what a disconnect does. |
| DaemonOwnership.TidyIff | headless/daemon.cpp:885-943 | One event: routes that are up stay owned and an interface that is up keeps its session, if and only if it is not a connect accepted without a session whose calls leave residue, or routes that ask for recovery. |
| DaemonOwnership.DisconnectedIsBare | headless/daemon.cpp:551-582 | Over every run without such a failure, with undisturbed stops and with restarts that carry no routes over, disconnected means no session, no routes and no interface are really left. |
| DaemonOwnership.DisconnectedOverRoutes | headless/daemon.cpp:889-897 | Otherwise not: legacy routing that fails and asks for recovery leaves its routes up, and disconnecting does not change that. |
| DaemonOwnership.StrandedIff | headless/daemon.cpp:778-818 | An interface is taken down under routes that are still owned exactly if an event finds the session of a connected daemon dead. |
| DaemonOwnership.StrandedCount | headless/daemon.cpp:778-818 | Over every run with undisturbed stops that happens exactly as often as a dead session is found. |
| LogUploader.Recognise | headless/remoteLogUploader.cpp:778-838 | Decides whether the source is still the one the cursor belongs to, starting a redacted epoch or giving up, in the order of the code. |
| LogUploader.HeadlessRemoteLogUploader.PollSource | headless/remoteLogUploader.cpp:717-777 | One poll: the invariant is kept, so whatever is sent is redacted or starts at a confirmed cursor. |
| LogUploader.HeadlessRemoteLogUploader.Continue | headless/remoteLogUploader.cpp:839-978 | Confirm, resume redacted, wait, or send a batch and save the cursor behind it. |
| LogUploader.HeadlessRemoteLogUploader.LoadState | headless/remoteLogUploader.cpp:488-531 | A state saved for this target is used as it was saved; one of another target is set aside for a fresh, redacted start. |
| LogUploader.UnredactedIsEarned | headless/remoteLogUploader.cpp:839-978 | In every run of polls and restarts: a chunk goes out unredacted only from an offset saved as stable earlier under the fingerprint it is sent with, no batch is empty or above the size limit, and every saved state passes the checks of reading it back. |
| LogUploader.CursorMovesByBatches | headless/remoteLogUploader.cpp:893-978 | Within an epoch a poll moves the cursor only to the end of a batch that was accepted and saved, and a batch is redacted exactly when the cursor was unconfirmed or due for redaction. |
| LogUploader.EpochIsContiguous | headless/remoteLogUploader.cpp:885-978 | However many polls see a growing source, the batches cover it in order without gap or overlap, and all but the last were accepted. |
| LogUploader.PollOnDisk | headless/remoteLogUploader.cpp:583-601 | Whatever the save does, a poll sends at most one batch, from the cursor on disk, and leaves that cursor behind the batch exactly if it was accepted and the file was replaced. |
| LogUploader.EpochAcrossRestarts | headless/remoteLogUploader.cpp:488-978 | Over any polls and restarts within an epoch each batch starts where the one before it ended, except that a batch whose cursor did not reach the disk is sent again from its start. |
| LogUploader.NewEpochIsRedacted | headless/remoteLogUploader.cpp:778-838 | Whatever a poll sends after the source was replaced, truncated or bound elsewhere is redacted. |
| LogPolls.SendsIff | headless/remoteLogUploader.cpp:839-978 | A poll sends if and only if it recognises its source, finds bytes behind its cursor and can read the anchor at the end of the batch; where the batch starts and ends, and that it is redacted exactly in a new epoch, after an unconfirmed batch, or where redaction is due. |
| LogPolls.HealthyIff | headless/remoteLogUploader.cpp:839-884 | A poll ends healthy if and only if the source stands where the last batch left it, under the same fingerprint, and the state is saved; the cursor is recorded as stable exactly then, or if only the report of the save failed. |
| LogPolls.StopsIff | headless/remoteLogUploader.cpp:717-978 | A working uploader stops if and only if it cannot read the source, set a foreign state aside, reconcile source and cursor, read an anchor, get the batch accepted, or save; and a stopped one stays stopped. |
| LogPolls.ExaminedIff | headless/remoteLogUploader.cpp:778-838 | Exactly which source is given up, which starts a new redacted epoch, and which is continued. |
| LogPolls.KeepsCursor | headless/remoteLogUploader.cpp:893-978 | What a poll that does not stop keeps: the same state in memory and on disk, with cursor, anchor, fingerprint, identity and binding of what it read. |
| LogPolls.StableWasSeen | headless/remoteLogUploader.cpp:839-884 | In every run, a cursor counts as stable only if a batch was recorded up to it and a poll saw the source with exactly that size and fingerprint. |
| ControlReply.ReadLength | common/awgMigrationTransport.h:42-53 | The header loop finds the one acceptable content length or the first reason to reject. |
| ControlReply.FindBoundary | common/awgMigrationTransport.h:30-31 | Finds the first blank line. |
| ControlReply.ParseControlReply | common/awgMigrationTransport.h:21-63 | The parser with its early exits computes the reply that the laws below are about: what the bytes have to say for each outcome, and how prefixes relate. |
| ControlReply.FailedStable | common/awgMigrationTransport.h:21-63 | A failed reply stays failed however the input continues. |
| ControlReply.CompleteIsExact | common/awgMigrationTransport.h:21-63 | Every proper prefix of a complete reply is pending and every strict extension fails. |
| ControlReply.PendingIsBounded | common/awgMigrationTransport.h:29-54 | A pending input is bounded in size, and once the header is complete, by the header and the document limit. |
| ControlReply.ChunkingIrrelevant | common/awgMigrationTransport.h:21-63 | However a complete reply is cut into chunks, it is received as the same reply. |
| ControlReply.SurplusDependsOnCut | common/awgMigrationTransport.h:21-63 | A complete reply followed by further bytes is received if they come as a chunk of their own, and rejected if they come with it. |
| ControlReply.CompleteIffEnd | common/awgMigrationTransport.h:30-63 | A prefix of a stream is a complete reply exactly when it ends at the blank line plus four plus the declared length, within the limits and with a readable document. |
| ReplyGrammar.CompleteIff | common/awgMigrationTransport.h:21-63 | About the bytes alone: complete if and only if the first blank line is within 8192 bytes, the first line reads HTTP/1.0 or HTTP/1.1, a space, 200, a space and something, no later line starts with transfer-encoding in any letter case, exactly one with content-length, its number is that of the bytes behind the blank line, positive and within the limit, and these read as a document; and the payload is that document. |
| ReplyGrammar.HttpRejectedIff | common/awgMigrationTransport.h:34-41 | Failed with control_http_rejected and a status if and only if the first line says that status, between 100 and 599 and not 200. |
| ReplyGrammar.InvalidStatusIff | common/awgMigrationTransport.h:34-40 | Failed with an invalid status if and only if the first line says none between 100 and 599. |
| ReplyGrammar.BodyFailsIff | common/awgMigrationTransport.h:55-61 | Surplus bytes and an unreadable document are reported exactly when the header is in order and announces fewer bytes, or as many and they do not read. |
| ReplyGrammar.PendingIff | common/awgMigrationTransport.h:30-55 | With a blank line there, more is awaited if and only if the header is in order and announces more bytes than there are. |
| ReplyGrammar.NoBlankLine | common/awgMigrationTransport.h:29-31 | Without a blank line more is awaited, until the limit is passed. |
| ReplyGrammar.ScanIff | common/awgMigrationTransport.h:42-54 | The header loop finds a length if and only if no line is a transfer encoding and exactly one is a content length, which says it. |
| ReplyGrammar.StatusIff | common/awgMigrationTransport.h:34-40 | The status line yields a code if and only if it says it, between 100 and 599. |
| ReplyGrammar.LinesUnique | common/awgMigrationTransport.h:33-33 | Cutting the header at line feeds gives its lines, and there is only one way to cut it. |
| ControlReply.CompleteIffCutAtEnd | common/awgMigrationTransport.h:21-63 | For every stream and every way of cutting it, a reply is received if and only if it is acceptable and some chunk ends exactly there. |

## Left out

- Route texts: spellings are abstracted to "printed form", "other spelling of a route" and "no route"; lists are sorted numerically here and as text in the code, and the filter for routable local entries is taken as already applied.
- Protected hosts: host names are one value, so two lists of the same literals with different names are not told apart; the comparison of the base's protected hosts with the current ones is made on the literals, and a difference in names is part of the answer about the local rules.
- Platform paths: Android, iOS and network extension branches, and the WireGuard and AmneziaWG native route update, are not modelled; the receipt protocol is the desktop path for other containers.
- Connected is taken to be announced at most once per epoch, as the protocol objects do.
- A service call that times out is taken to have had its effect, whatever that is, when the call returns.
- `sameResolvedLocalRouteContext`, the reconnect gate and its cooldown: their answers are inputs; the generation filter of prepared snapshots is not modelled, any prepared snapshot may appear.
- Counters of the worker are unbounded integers; only the gate's id counter wraps.
- RouteWorker.VpnWorker.ReconcileManagedRoutes: the reconnect it starts after an uncertain update is a separate step, which other events may precede.
- RouteWorker.VpnWorker.AddSitesRoutes: the best-effort addition of local routes is not part of the state.
- KeychainBroker.SharedBroker.Enter: waiting on the condition variable is not modelled; a caller that gives up is the separate step `DeadlineReached`.
- Keychain data, error strings and the native jobs themselves.
- Signatures, digests and hashes are uninterpreted; only that equal inputs give equal outputs is used, and, for `TriedIff`, that a credential hash is never empty.
- MigrationJournal.AwgMigrationManager.LoadJournal: an existing journal file is taken to be readable and to be one the manager wrote; unsafe directories and foreign files are not modelled.
- MigrationJournal.AwgMigrationManager.StageOffer: the syntax checks on endpoint, address and parameters, and the text of the candidate file, are not modelled.
- Journals written before staged generations were recorded.
- Recovery of the desktop client: the states in which credentials are asked for or staged are one state; failed writes of its journal are left out. Nonces are 128 random bits, and one that is drawn is taken never to have been drawn before.
- Crashes of the daemon fall between two operations or inside a candidate attempt; one inside a legacy connection or a cleanup is not modelled.
- DaemonOwnership.HeadlessDaemon.ShutDown: called when the outermost event loop has ended, or on destruction, so never inside a mutation; what an outside call removes is taken to be gone when that call returns, also when events were handled during the wait.
- Migration journals: one journal stands for those of all profiles of the daemon, and a candidate whose files have become unusable is one answer of the script.
- DaemonOwnership.HeadlessDaemon.Perform: profile import, log provisioning, updates and rollback touch neither ownership nor state and appear only as nested waits.
- Routing that fails without asking for recovery is taken to have left no routes; a failed legacy connection may leave an interface but no session, and a backend that drops its session has taken the interface down.
- LogUploader.HeadlessRemoteLogUploader.LoadState: a state file that cannot be read at all, and the directory checks, are not told apart from no state.
- LogUploader.HeadlessRemoteLogUploader.PollSource: enrolling for a token, the sanitizer and its look-behind, and the validity of the sanitizer state are not modelled; failures to read are one flag.
- ControlReply.ParseControlReply: JSON reading is a function parameter.
- Profile store, request framing, command line, diagnostics and update management: they would mostly add easy members.
