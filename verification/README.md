# A verified model of the dev router

The router gives many development environments one public host. Each route has a Durable Object that
keeps the route's subscribers, their tunnels, their OAuth bindings and the tunnel requests in flight;
a router-wide index remembers which routes have subscribers, stores the logs and the webhook rules;
and a public ingress finds the route of a request, then proxies an OAuth callback or fans a webhook
out. This project models that logic in Dafny and proves what it keeps over every run.

## How it is organised

**The per-route object.** `RouteState` holds the state of one object as a value (rows, OAuth bindings,
tagged sockets, in-flight requests with their timers, the audit queue, the index entry, the alarm,
the clock) and the meaning of each primitive on it. `RouteSteps` turns every handler into a step with
its own enabling condition, and sequences of steps into runs. `RouteInvariant` is the joint invariant;
`RoutePrimitives`, `RouteKeeps`, `RouteDetach` and `RouteReachable` prove that every step of every run
keeps it. `RouteRowLaws`, `RouteSocketLaws`, `RouteRequestLaws`, `RouteLogLaws` and `RouteOutwardLaws`
say of every step, on the tables alone and with none of the primitives, what each row, binding, socket,
promise, audit event, alarm and index entry is afterwards, and what follows over runs. `RouteCarry`
summarises what a step does to rows and bindings; `RouteRuns`, `RouteRequests` and `RouteGuarantees` hold
the other main results about whole runs. `RouteDurableObject` is the object
itself: a class that updates its tables, maps and queue in place, with loops that delete while they
iterate. Each of its handlers is proved to be exactly one enabled step, so every history of calls is
a run and every run result applies to it. `RouteSweep` and `RouteFanout` support its loops. `SplitJoin`
is the one place where a handler is cut at an `await`.

**Around it.** `RouterIndex` is the index of routes. `PublicIngress` looks routes up and proves the
index to be a sound cache for all routes at once; `IngressHandler` carries a request from its path to
its answer. `CappedLog` and `LogStorage` are the capped, expiring logs next to their unbounded
history, and `AuditListing` is what the stored audit log shows of the events sent to it.
`WebhookPathFilter`, `WebhookFilterPath`, `WebhookRules`, `IngressUrls` and `RouteId` are the path and
rule algebra. `Base64`, `Utf8`, `OAuthState`, `TunnelProtocol` and `IngressBody` are the codecs and
the body reader. `Text`, `Minimum` and `Wrappers` are shared vocabulary.

## How the model reads the code

- A handler, up to the point where it waits for a subscriber's answer, is one atomic step with one
  clock value; clocks never run backwards. Sending a tunnel request and receiving its answer are
  separate steps, and so is the audit flush after a delivery.
- Ids, tokens, the order in which the database returns rows, and which `send` calls throw are inputs
  of a step. Drawn subscriber ids are new; the hash of a connection token is a free constructor, so
  two tokens have the same hash only if they are equal.
- A socket stays listed while it is closing and leaves the list with its close or error event, one
  step for both. Pings answered by the runtime, and a peer that starts closing, are steps too.
- `pending` maps, timers, the audit queue and the ignore set live as long as the object does; the
  runtime's hibernation is not modelled.
- A row's forward token is never empty in a reachable state, so the branch that mints one for an old
  row is modelled in the reclaim only.
- JSON text, MACs, form bodies, the scanner-probe test and the allowlist of callback paths enter as
  function parameters. Path names arrive parsed. Strings are sequences of Unicode scalar values, but
  for a tunnel secret, which may hold lone surrogates as the text coder sees them.
- A proxied callback is logged when its delivery has ended. For a tunnel that is the one outcome of its
  promise, in whatever state the object is then; the response of a public target is an input.
- A public request looks its route up, reads its body and dispatches at three times. `ReadAndDispatch`
  starts from any state of the route's object, so other handlers may run in between.

## What turned out otherwise

- A tunnel that has been silent for five minutes, with no purge in between, is not closed by the next
  purge: its expired lease is renewed first, and then its age is judged
  (`RouteSocketLaws.LongSilenceIsForgiven`). An upgrade sets no alarm, so an object whose subscribers only
  ever upgrade is not probed (`RouteOutwardLaws.UpgradesSetNoAlarm`); `RouteOutwardLaws.AlarmProbes` is
  what every alarm does once there is one.
- All tunnels of one fan-out share one request id. Only the last of them can answer, and the requests of
  the others end by their timers ten seconds later (`RouteRequestLaws.EarlierTunnelsTimeOut`,
  `RouteRequestLaws.LastTunnelIsAwaited`); a timer also takes away a later request under its id
  (`RouteRequestLaws.TimerTakesItsKey`).
- Two checks of a webhook path never decide: a path with its leading slash has no scheme, and its normal
  form is no longer than it is (`WebhookFilterPath.ValidateIff`).
- Behind a doubled leading slash a named route is found, but its prefix is not stripped
  (`PublicIngress.DoubledSlashIsNotStripped`).
- Normalising a webhook path is not idempotent: `/a /` becomes `/a ` and then `/a`.
  `WebhookFilterPath.NormalizeIdempotentIff` gives the condition on the path: no whitespace just
  before its trailing slashes.
- A stored rule cannot always be deleted by the path that the list shows. Validation looks at the path
  as it is given, and what is stored is its normal form: `/a /` is stored as `/a `, `/a/.. ` as `/a/..`
  and `/x.php ` as `/x.php`. So a stored path can hold a `..` segment or be a scanner probe.
  `WebhookRules.DeletableAsListed` has the exact condition on the stored path,
  `WebhookRules.UndeletableRules` the three inputs. A listed path with whitespace at its end even names
  another rule (`WebhookRules.ListedSpaceNamesAnotherRule`).
- A tunnel secret that starts with a byte order mark is received without it, and one that holds a lone
  surrogate is received with a replacement character. `TunnelProtocol.SecretComesBackIff` says that
  every other secret comes back; `TunnelProtocol.MarkedSecretIsCut` is the family of inputs.
- The `..` check stops after four decodings. `IngressUrls.BoundIsExact` shows that `..` hidden under
  n encodings is caught iff n is within the bound; `IngressUrls.SettledPathsAreFullyJudged` says for
  which paths the bound does not matter.
- The second `..` check of the public ingress never fires (`IngressUrls.StrippingKeepsPathsClean`).
- Replacing a log row by an older event can hide an evicted event that the history would show again
  (`LogStorage.OlderReplacementShows`); `CappedLog.ReplaceRefinesIff` is the exact condition, and
  `CappedLog.ReplaceRefinesIfNotOldest` one that the table alone shows.
- The audit log is proved to replay in the order in which its events are sent. As stored, all events of
  one flush have one time and random ids, so the farewell and the greeting of one reclaim may be listed
  in either order (`AuditListing.ReclaimMayListBackwards`). The newest listed event of a subscriber is
  its last sent one exactly when that one has the largest id of those that share its time
  (`AuditListing.FirstListedIsLastSentIff`), as a single one has.
- Cut at its `await`, a reclaim reports success even if the row it found is removed meanwhile;
  `SplitJoin.ReclaimHasRowIff` says exactly when it has a row. Environments stay unique nonetheless.

## Model

| member | source | states |
|---|---|---|
| RouteReachable.StepKeeps | src/durable-object.ts:163-466 | Every handler keeps the joint invariant: one row per environment, no dangling binding or pending entry, at most one OPEN socket per subscriber and that of a tunnel row, settled-once promises, a replayable audit log, an indexed active route, an alarm for every row that needs one |
| RouteReachable.RunKeeps | src/durable-object.ts:163-466 | The same after any sequence of handlers, socket events, timers and alarms |
| RouteReachable.InitialHolds | src/durable-object.ts:82-94 | A new object satisfies the invariant, even if the index holds a stale entry for its route |
| RouteRowLaws.RowAfter | src/durable-object.ts:634-1000 | After any step a subscriber has a row exactly if the step connected it, or it had one that was not deregistered, not an anonymous tunnel's that lost its socket, and not lapsed at a purge; a connected row holds exactly what it was connected with, and any other is the same but for its lease, which starts over exactly if the step renews it |
| RouteRowLaws.JoinedIff | src/durable-object.ts:634-744 | A join connects the holder of its environment, unless that one is public or has a socket and the join lacks its token; a new subscriber if nobody holds it; nobody for a malformed id |
| RouteRowLaws.BindingAfter | src/durable-object.ts:362-387 | After any step a state is bound exactly if the step bound it, for fifteen minutes, or it was bound, its subscriber has a row, and no purge found it expired |
| RouteRowLaws.LeaseIsLatestRenewal | src/durable-object.ts:786-800 | In every run a lease ends five minutes after the subscriber last connected, sent a heartbeat, was delivered to, was parked, or outlived it with a socket |
| RouteSocketLaws.SocketAfter | src/durable-object.ts:802-859 | After any step a socket is listed until its end, OPEN until its peer closes it, its subscriber is replaced or deregistered, or a purge finds it silent, and ignored exactly after a replacement or deregistration |
| RouteSocketLaws.PurgeClosesIff | src/durable-object.ts:919-949 | A purge closes an OPEN socket exactly if neither the kept row's heartbeat nor a ping is from the last 90 seconds, and leaves all others as they were |
| RouteSocketLaws.HeardFromStaysOpen | src/durable-object.ts:919-949 | For 90 seconds after its upgrade, a heartbeat or a ping, no run closes a socket but by its peer or the replacement or deregistration of its subscriber |
| RouteSocketLaws.LongSilenceIsForgiven | src/durable-object.ts:882-949 | A purge that finds the lease of an OPEN tunnel expired renews it and leaves the socket open |
| RouteRequestLaws.PromiseAfter | src/durable-object.ts:222-254 | After any step a promise is settled exactly as the cause says: answer, error, timer, deregistration, replacement, a socket's end, or a lapse; otherwise it is as it was |
| RouteRequestLaws.DeliveryLaw | src/durable-object.ts:468-563 | A delivery makes one promise exactly for a tunnel and a body that fits: it waits ten seconds under its id, or fails at once for want of a socket or by a throwing send; no other promise changes |
| RouteRequestLaws.DeliverableIff | src/durable-object.ts:601-621 | A subscriber is deliverable exactly if a delivery to it does not fail for want of a socket |
| RouteRequestLaws.OvertakenTimesOut | src/durable-object.ts:540-563 | A promise whose pending entry was taken over ends in no run but by its timer |
| RouteRequestLaws.TimerTakesItsKey | src/durable-object.ts:550-553 | A timer removes whatever stands under its id, and a later request there is overtaken in its turn |
| RouteRequestLaws.EarlierTunnelsTimeOut | src/durable-object.ts:406-413 | Of the tunnels of one fan-out, all but the last have requests that end in no run but by their timers, due ten seconds later |
| RouteRequestLaws.LastTunnelIsAwaited | src/durable-object.ts:406-413 | The last tunnel's request waits for an answer under the shared id |
| RouteLogLaws.LogAfter | src/durable-object.ts:634-744 | Exactly which events any step logs and in which order, with reason, environment, transport, target and client address |
| RouteLogLaws.LogDescribesLiveRows | src/durable-object.ts:634-744 | In every reachable state a live subscriber's last event is `connected` and has the environment, transport and target of its row |
| RouteLogLaws.QueueAfter | src/durable-object.ts:967-973 | A step sends all queued events, or none |
| RouteOutwardLaws.AlarmAfter | src/durable-object.ts:1026-1045 | A step leaves the alarm, or sets it for the first end of a lease, within 30 seconds while there is a tunnel, at least a second ahead, and no earlier than one of these asks for |
| RouteOutwardLaws.AlarmProbes | src/durable-object.ts:461-466 | After an alarm every OPEN socket was heard from within 90 seconds, and the next alarm is at most 30 seconds away |
| RouteOutwardLaws.UpgradesSetNoAlarm | src/durable-object.ts:163-220 | Runs without registration, heartbeat call, deregistration or a socket's end never set an alarm |
| RouteOutwardLaws.IndexAfter | src/durable-object.ts:1012-1024 | A step leaves the route's index entry, or makes it say whether there are rows, or for a pruning whether anybody is active |
| RoutePrimitives.PurgeKeeps | src/durable-object.ts:872-949 | A purge keeps the whole invariant, including the replay of the audit log and the alarm |
| RouteKeeps.FetchKeeps | src/durable-object.ts:163-220 | A tunnel upgrade keeps it, whether refused, rejected, created or reclaimed |
| RouteKeeps.RegisterKeeps | src/durable-object.ts:265-306 | So does a public registration |
| RouteKeeps.DeregisterKeeps | src/durable-object.ts:346-360 | So does a deregistration, whose purge may empty the table |
| RouteDetach.SocketGoneKeeps | src/durable-object.ts:802-839 | So does the end of a socket: parked, removed, or ignored because it was replaced |
| RouteKeeps.DeliverAllKeeps | src/durable-object.ts:406-413 | So does a fan-out over any number of subscribers under one shared request id |
| RouteGuarantees.AuditReplay | src/durable-object.ts:658-743 | In every reachable state a subscriber's last event in sending order, rejections aside, is `connected` exactly when its row exists and is public or has a listed socket whose close is still to be logged |
| AuditListing.FirstListedIsLastSentIff | src/connection-log-storage.ts:63-109 | Of the rows listed about a subscriber, the first is the last one sent exactly when that one has the largest id of those that share its time |
| AuditListing.SingleEventWins | src/connection-log-storage.ts:63-87 | That is so when no other event about the subscriber shares its time |
| AuditListing.ListedReplay | src/connection-log-storage.ts:63-109 | In every reachable state with an empty queue, the newest listed event of a subscriber is then `connected` exactly when the subscriber is live |
| AuditListing.FlushRecords | src/connection-log-storage.ts:63-87 | A flush keeps the sent rows in order and the history complete |
| AuditListing.ReclaimMayListBackwards | src/connection-log-storage.ts:63-109 | A farewell and a greeting stamped alike are listed in either order, by their ids |
| RouteGuarantees.ConnectsAlternate | src/durable-object.ts:958-995 | Between two `connected` events of a subscriber there is always a `disconnected` one |
| RouteGuarantees.OneRowPerEnvironment | src/durable-object.ts:148-150 | At most one row per environment id |
| RouteGuarantees.OneOpenSocket | src/durable-object.ts:841-859 | An OPEN socket belongs to a tunnel row, and no subscriber has two |
| RouteGuarantees.NoDanglingReferences | src/durable-object.ts:976-995 | Bindings name rows, pending entries name tunnel rows, and every lease is five minutes from its last renewal |
| RouteGuarantees.AlarmCoverage | src/durable-object.ts:1026-1045 | Every public and every parked row has an armed alarm no later than its expiry or a second after the last scheduling, whichever is later |
| RouteGuarantees.AlarmCollects | src/durable-object.ts:461-466 | An alarm at or after a socketless row's expiry removes the row |
| RouteGuarantees.AlarmMakesIndexExact | src/durable-object.ts:1012-1024 | Right after any alarm the route is indexed exactly when it has rows |
| RouteGuarantees.PurgeIdempotent | src/durable-object.ts:872-949 | A second purge at the same time changes nothing at all |
| RouteGuarantees.PurgeLeavesNoStaleSocket | src/durable-object.ts:919-949 | After a purge every OPEN tunnel socket was heard from within 90 seconds |
| RouteSweep.SweepIsPurge | src/durable-object.ts:872-917 | Removing rows one by one in three loops over the shrinking table is one filter over the original table |
| RouteSweep.ThirdLoopTargets | src/durable-object.ts:901-917 | The third loop reaches exactly the removable rows that the first two left |
| RouteSweep.AllVisited | src/durable-object.ts:861-870 | Rejecting a subscriber's requests while deleting from the map being iterated rejects each exactly once |
| RouteRequests.ExactlyOnceSettlement | src/durable-object.ts:540-563 | In every reachable state a promise has been settled at most once, waits exactly while its own timer is armed and due within ten seconds, and every pending entry is a waiting promise whose timer deletes that entry |
| RouteRequests.SettledForGood | src/durable-object.ts:243-253 | A settled promise keeps its one outcome through every run |
| RouteRequests.UnsharedRequestIsAnswerable | src/durable-object.ts:243-253 | A request whose id is not reused stays answerable over any run: the first answer or error carrying it settles exactly its promise and no other |
| RouteRequests.SendOwns | src/durable-object.ts:540-563 | A request sent under an id nobody waits on owns that id |
| RouteRequests.StepAnswers | src/durable-object.ts:240-253 | Nothing but a response message that carries the id under which it waits settles a promise with an answer |
| RouteRequests.AnswerCameFromClient | src/durable-object.ts:240-253 | A promise that a run finds answered was answered by such a message in that run |
| RouteRuns.RowSurvives | src/durable-object.ts:802-839 | An environment row outlives every run that ends before its lease and does not deregister it, with the same birth, environment and forward token and a lease that only grows |
| RouteRuns.DetachParks | src/durable-object.ts:815-835 | When the current socket of an environment tunnel goes, the row is parked with a full lease |
| RouteRuns.ReconnectContinuity | src/durable-object.ts:815-835 | From parking until the end of the grace period, any run without deregistration keeps the row's identity, forward token and unexpired bindings |
| RouteRuns.ReclaimReturnsTheRow | src/durable-object.ts:682-715 | A reclaim in that window hands back the same id and forward token |
| RouteRuns.CredentialsAreLatest | src/durable-object.ts:682-743 | A row's transport, target, environment, webhook flag and token hash are always those of its latest successful connect; nothing else touches them |
| RouteDurableObjectModule.DeliveryFollowsLatestConnect | src/durable-object.ts:468-538 | After any run a public delivery goes to the target of the subscriber's latest registration, and one over a tunnel follows an upgrade |
| RouteRuns.OnlyLatestTokenVerifies | src/durable-object.ts:338-344 | From a new object, a token verifies exactly if the subscriber has a row and its latest successful connect issued that token |
| RouteRuns.LiveEnvironmentIsTheftProof | src/durable-object.ts:658-681 | A join naming a live environment succeeds iff it presents that token |
| RouteRuns.RejectedJoinChangesNothing | src/durable-object.ts:658-681 | A rejected join changes nothing beyond its purge but the stored route id and one `rejected` event |
| RouteRuns.BindingSurvives | src/durable-object.ts:362-387 | A binding nobody rebinds never changes, and is there while it is unexpired and its row exists |
| RouteRuns.GoneForGood | src/durable-object.ts:718-735 | A subscriber id that lost its row never has one again |
| RouteGuarantees.OAuthCorrelation | src/durable-object.ts:565-599 | After a bind, over any run that does not rebind the state, an unsigned callback goes to the bound subscriber or to nobody while the binding is unexpired and its row exists; after that it goes to the only deliverable subscriber, and to nobody if there is none or more than one |
| RouteGuarantees.UncorrelatedGoesToTheOnlyOne | src/durable-object.ts:583-599 | A callback without a state, or with one that is neither verified nor bound, goes to the only deliverable subscriber, and to nobody exactly if their number is not one |
| RouteGuarantees.TargetIsDeliverable | src/durable-object.ts:565-599 | A callback's target is always deliverable, and a signed state reaches its own subscriber or nobody |
| RouteGuarantees.OAuthIgnoresWebhookFlags | src/durable-object.ts:420-459 | OAuth handling is the same whatever the webhook flags: same target, and states that again differ in those flags only |
| RouteGuarantees.CountIsFanoutSize | src/durable-object.ts:415-418 | The logged count is the number of subscribers a fan-out at the same time delivers to |
| RouteFanout.SelectionIsFanoutList | src/durable-object.ts:623-632 | Filtering the ordered list of deliverable subscribers yields every target once, oldest first |
| RouteFanout.FanOutReachesIff | src/durable-object.ts:406-413 | A fan-out reaches exactly the subscribers that are public or have an OPEN socket, accept webhooks, and are excluded by no rule in scope, each once and oldest first |
| RouteDurableObjectModule.RouteDurableObject.constructor | src/durable-object.ts:82-94 | A new object starts a run |
| RouteDurableObjectModule.RouteDurableObject.PurgeExpired | src/durable-object.ts:872-899 | The four loops and the binding deletion equal the filter, with one `disconnected` event per removed row |
| RouteDurableObjectModule.RouteDurableObject.RemoveExpiredPublic | src/durable-object.ts:872-881 | The loop over expired public rows |
| RouteDurableObjectModule.RouteDurableObject.RemoveExpiredTunnels | src/durable-object.ts:882-896 | The loop over expired tunnels: renewed while a socket is listed, failed and removed otherwise |
| RouteDurableObjectModule.RouteDurableObject.PurgeDisconnectedTunnels | src/durable-object.ts:901-917 | Exactly the anonymous tunnels without a socket go |
| RouteDurableObjectModule.RouteDurableObject.ExpireStaleTunnels | src/durable-object.ts:919-949 | Exactly the OPEN sockets of silent tunnels are closed |
| RouteDurableObjectModule.RouteDurableObject.FailPendingForSubscriber | src/durable-object.ts:861-870 | Exactly the subscriber's entries are rejected, each with its timer cleared |
| RouteDurableObjectModule.RouteDurableObject.CloseSockets | src/durable-object.ts:841-855 | Exactly the subscriber's listed sockets are closed and marked |
| RouteDurableObjectModule.RouteDurableObject.RemoveSubscriberRow | src/durable-object.ts:976-995 | The row, its bindings, and one event |
| RouteDurableObjectModule.RouteDurableObject.LiveSocket | src/durable-object.ts:857-859 | Some OPEN socket of the subscriber, and none only if there is none |
| RouteDurableObjectModule.RouteDurableObject.FlushConnectionLog | src/durable-object.ts:967-973 | The queue moves to the end of what the index was sent, in order |
| RouteDurableObjectModule.RouteDurableObject.SyncIndex | src/durable-object.ts:1012-1024 | Flushes, then indexes the route iff it has rows, and no other route |
| RouteDurableObjectModule.RouteDurableObject.ScheduleCleanup | src/durable-object.ts:1026-1045 | Arms the alarm for the first expiry or the tunnel probe, at least a second ahead, or disarms it |
| RouteDurableObjectModule.RouteDurableObject.ReclaimOrCreate | src/durable-object.ts:634-744 | Rejected exactly when a live environment's token is not matched; otherwise the row is reclaimed or created and its forward token returned |
| RouteDurableObjectModule.RouteDurableObject.Upgrade | src/durable-object.ts:163-220 | 426, 400 or an exception, changing nothing, by the upgrade header and the path; otherwise one enabled `Fetch` step, with the client's protocol echoed on success |
| RouteDurableObjectModule.AsksInAnyCase | src/durable-object.ts:164-166 | The upgrade header counts in any case |
| RouteDurableObjectModule.RouteDurableObject.Fetch | src/durable-object.ts:174-220 | From the environment id on: is one enabled `Fetch` step, keeps the invariant, answers with credentials that the table holds and that verify, and leaves the index entries of other routes |
| RouteDurableObjectModule.RouteDurableObject.Register | src/durable-object.ts:265-306 | Is one enabled `Register` step, and answers likewise; leaves the index entries of other routes |
| RouteDurableObjectModule.RouteDurableObject.Heartbeat | src/durable-object.ts:308-336 | Is one step; says whether the purged table still has the row unexpired |
| RouteDurableObjectModule.RouteDurableObject.VerifyConnectionToken | src/durable-object.ts:338-344 | True exactly for a token whose digest the subscriber's row stores |
| RouteDurableObjectModule.RouteDurableObject.Deregister | src/durable-object.ts:346-360 | Is one step; the row is gone, and the index entries of other routes stay |
| RouteDurableObjectModule.RouteDurableObject.BindOAuthState | src/durable-object.ts:362-387 | Is one step; refused for an empty or overlong state, not found exactly without a row |
| RouteDurableObjectModule.RouteDurableObject.GetActiveSubscribers | src/durable-object.ts:389-404 | Is one step; lists exactly the active subscribers once, oldest first, parked environments included |
| RouteDurableObjectModule.RouteDurableObject.PruneIndex | src/dashboard-http.ts:268-286 | Is one step; unindexes the route, and no other, exactly when no subscriber is active |
| RouteDurableObjectModule.RouteDurableObject.AddToIndex | src/management-http.ts:296-375 | Is one step: a registration indexes its route once more, and no other |
| RouteDurableObjectModule.RouteDurableObject.DeliverySubscribers | src/durable-object.ts:601-621 | Lists exactly the deliverable subscribers of the purged table once, oldest first |
| RouteDurableObjectModule.RouteDurableObject.CountWebhookFanoutDeliveries | src/durable-object.ts:415-418 | Is one step; counts the fan-out targets |
| RouteDurableObjectModule.RouteDurableObject.FanOut | src/durable-object.ts:406-413 | Is one step: delivers to each selected subscriber in turn |
| RouteDurableObjectModule.RouteDurableObject.SendAndWait | src/durable-object.ts:540-563 | No socket, a throwing send, or a waiting promise with its timer that takes over its key |
| RouteDurableObjectModule.RouteDurableObject.Deliver | src/durable-object.ts:468-538 | Renews the subscriber, then fetches its public target, refuses an oversized body, or sends over its tunnel |
| RouteDurableObjectModule.RouteDurableObject.ResolveOAuthSubscriber | src/durable-object.ts:565-599 | Finds the target of the callback; one that nothing correlates goes to the only candidate there is |
| RouteDurableObjectModule.RouteDurableObject.ProxyOAuth | src/durable-object.ts:420-459 | Is one step; 404, 409, 404, 413 or the delivery, by target and number of candidates; an uncorrelated callback is proxied to the only candidate, 404 without one and 409 with several |
| RouteDurableObjectModule.ProxyAnswerMeans | src/durable-object.ts:420-459 | Which answer means which target and how many candidates, and where a proxied callback goes |
| RouteDurableObjectModule.RouteDurableObject.WebSocketMessage | src/durable-object.ts:222-254 | Is one step: a heartbeat renews, an answer or error settles its pending entry, anything else is ignored |
| RouteDurableObjectModule.RouteDurableObject.DetachSocket | src/durable-object.ts:802-839 | Fails the subscriber's requests; then nothing if replaced, parking for an environment, removal otherwise; the index entries of other routes stay |
| RouteDurableObjectModule.RouteDurableObject.WebSocketClose | src/durable-object.ts:256-263 | Is one step, with the reason its close code gives; the index entries of other routes stay |
| RouteDurableObjectModule.RouteDurableObject.TimerFires | src/durable-object.ts:550-553 | Is one step: deletes whatever its key holds and rejects its own promise |
| RouteDurableObjectModule.RouteDurableObject.Alarm | src/durable-object.ts:461-466 | Is one step: purge, reschedule, sync; the index entries of other routes stay |
| SplitJoin.RunKeeps | src/durable-object.ts:651-656 | With other handlers between a join's lookup and its write, environments stay unique over every interleaving |
| SplitJoin.IndexStopsOnlyInserts | src/durable-object.ts:148-150 | The unique index never stops a reclaim's UPDATE, and stops an INSERT exactly when the environment got a row meanwhile |
| SplitJoin.ReclaimHasRowIff | src/durable-object.ts:682-715 | A reclaim is answered with success in any case, and has a row after its write exactly when nobody removed the one it found |
| SplitJoin.NewJoinHasRowIff | src/durable-object.ts:718-743 | A join that found no row is answered with success exactly when it has one |
| SplitJoin.RemovedRowIsAnswered | src/durable-object.ts:651-715 | The run lookup, removal, write: success, and no row |
| RouterIndexModule.RouterIndex.AddRoute | src/router-index.ts:75-85 | Adds allowed routes and ignores all others |
| RouterIndexModule.RouterIndex.RemoveRoute | src/router-index.ts:87-89 | Removes that route only |
| RouterIndexModule.RouterIndex.IndexedPublicRoutePresence | src/router-index.ts:103-121 | Presence of the named route, if its id is valid, and of the catch-all |
| RouteId.ObjectNamesAreDistinct | src/route-id.ts:8-39 | Allowed routes have distinct Durable Objects, none of them the index |
| PublicIngress.MoveKeeps | src/durable-object.ts:1012-1024 | A handler of one route, which as its contract says leaves the index entries of other routes, keeps every route's object and the index in step |
| PublicIngress.IndexIsSoundCache | src/public-ingress.ts:266-307 | After any run of any handlers on any routes, the lookup through the index finds the same route, remaining path and subscribers as asking the objects directly |
| PublicIngress.RemainingPathIsSuffix | src/ingress-urls.ts:80-92 | For `/routeId` followed by nothing or a slash, the candidate is that route and the remaining path is the rest |
| PublicIngress.RemainingPathWithoutPrefix | src/ingress-urls.ts:80-92 | Any other path, and the catch-all's, is left whole and never empty for the catch-all |
| PublicIngress.CandidateIs | src/public-ingress.ts:275-279 | The candidate is what stands between the leading slashes, however many, and the next slash or the end |
| PublicIngress.ReservedPathsNameNoRoute | src/route-id.ts:6-15 | Paths under `_router` and `dashboard` name no route |
| PublicIngress.DoubledSlashIsNotStripped | src/ingress-urls.ts:80-92 | Behind two or more slashes the route is found and the remaining path is the whole path |
| PublicIngress.LookupMeans | src/public-ingress.ts:266-307 | The lookup finds the named route if anybody is active there, else the catch-all if anybody is active there, with all active rows |
| PublicIngress.ResolvePublicRoute | src/public-ingress.ts:266-307 | Returns what the index-free lookup finds, although an unindexed object is not asked |
| PublicIngress.RegisteredIsActive | src/durable-object.ts:265-306 | A registered subscriber is active at once |
| PublicIngress.RegisterThenResolve | src/management-http.ts:296-375 | After a registration on a named route the next lookup finds that route with the subscriber in it, and the root's object and index entry are as they were |
| IngressHandler.HandlePublicIngress | src/public-ingress.ts:26-214 | For every request: the verdict, every field of the event recorded for it, and exactly which handlers run on which object, with which arguments; an unseen request runs none, a rejected one only asks for subscribers |
| IngressHandler.ReadAndDispatch | src/public-ingress.ts:67-214 | The same for a request that has found its route, from its body on |
| IngressHandler.Dispatch | src/public-ingress.ts:118-214 | One proxy step for a callback, a count and a fan-out step for a webhook, none for a rejected class |
| IngressHandler.CountThenFanOut | src/public-ingress.ts:196-213 | The logged count is the number of targets at that time, and the number delivered to when no time passes until the fan-out |
| IngressHandler.LoggedResultMeans | src/public-ingress.ts:39-212 | Every request that gets past the first check is logged, a proxied callback once its delivery has ended: as accepted exactly if fanned out, with an error exactly if rejected |
| IngressHandler.LoggedProxyMeans | src/public-ingress.ts:176-195 | A callback sent over a tunnel is logged as proxied exactly if its promise was answered, and then a client's response message with its id answered it after it was sent |
| IngressHandler.AwaitedIsUnanswered | src/durable-object.ts:540-563 | Right after the proxy step the promise it waits for is there and not answered |
| IngressHandler.EndIsFinal | src/durable-object.ts:540-563 | A delivery that has ended has ended that way in every later state |
| IngressHandler.RecordProxied | src/public-ingress.ts:176-195 | The event recorded for a proxied callback, in full, as its delivery ended |
| IngressHandler.CallbacksAreNotFannedOut | src/public-ingress.ts:104-214 | A request whose path has `oauth` or `auth` right before `callback` as whole segments in any case, or whose state starts as a signed one, is never fanned out; a proxied one is allowlisted, has a result, and comes by GET or POST |
| IngressHandler.VerdictMeans | src/public-ingress.ts:33-140 | In which order a request is judged: path, route, size over 768 KiB, class |
| IngressHandler.QueryComesFirst | src/oauth-state.ts:98-117 | A field is the query's if it has one, even an empty one, and else the form's |
| IngressHandler.LogMeans | src/public-ingress.ts:39-214 | Which branch the status and error of a recorded event name, and its id, method, path, counts, size and kind |
| CappedLog.ListRefines | src/connection-log-storage.ts:90-109 | The newest rows of the table in the window are the newest of the whole history in the window |
| CappedLog.PurgeRefines | src/connection-log-storage.ts:112-129 | Purging by age and then by overflow loses no event that a later list could show |
| CappedLog.InsertRefines | src/inbound-log-storage.ts:74-102 | Nor does inserting, or replacing a row that is not newer |
| CappedLog.ReplaceRefinesIff | src/inbound-log-storage.ts:74-102 | Replacing a row keeps the refinement exactly when the new row is newer than every event evicted from the window |
| CappedLog.ReplaceRefinesIfNotOldest | src/inbound-log-storage.ts:74-102 | It does whenever the table has room or the new row is newer than some other row |
| CappedLog.NewestIsUnique | src/connection-log-storage.ts:96-108 | Order and limit determine the list |
| CappedLog.LessIff | src/connection-log-storage.ts:96-108 | Ids are ordered by their first difference |
| LogStorage.RunIsFaithful | src/connection-log-storage.ts:63-129 | Over any sequence of inserts and lists the table refines the history and stays within its cap |
| LogStorage.ListShowsHistory | src/connection-log-storage.ts:90-109 | Every list is the newest clamped-limit events of the never-purged history in the window |
| LogStorage.FreshIdsReplaceNothing | src/connection-log-storage.ts:63-87 | Events with new ids, as the connection log draws them, meet the condition on replacing |
| LogStorage.LastInsertCounts | src/inbound-log-storage.ts:74-102 | An insert stores the last event of an id, at its own time or that of the call |
| LogStorage.ClampsLimit | src/connection-log-storage.ts:90-109 | A list's limit is at least one and at most the cap, and as asked in between |
| LogStorage.OlderReplacementShows | src/inbound-log-storage.ts:74-102 | A concrete case in which an older replacement makes table and history differ |
| LogStorage.LogTable.Purge | src/connection-log-storage.ts:112-129 | Leaves the rows in the window, less the oldest above the cap |
| LogStorage.LogTable.InsertEvents | src/inbound-log-storage.ts:74-102 | Each event replaces the row of its id, in order, and then the table is purged |
| LogStorage.LogTable.SelectNewest | src/connection-log-storage.ts:96-108 | The newest rows, newest first |
| LogStorage.LogTable.ListEvents | src/inbound-log-storage.ts:105-124 | Lists the newest rows; for a faithful table, the newest of the history |
| LogStorage.NewTables | src/connection-log.ts:3-10 | 2000 events for 90 days, and 5000 for 7 days |
| WebhookPathFilter.UnderIsSegmentPrefix | src/webhook-path-filter.ts:33-47 | Between normal forms, the string test holds iff the prefix's slash-separated segments are a sequence prefix of the path's |
| WebhookPathFilter.UnderIsTransitive | src/webhook-path-filter.ts:33-47 | The test is transitive |
| WebhookPathFilter.UnderIsAntisymmetric | src/webhook-path-filter.ts:33-47 | Normal forms that pass it both ways are equal |
| WebhookPathFilter.PrefixesOfAPathAreComparable | src/webhook-path-filter.ts:33-47 | Of two prefixes of one path, one is a prefix of the other |
| WebhookPathFilter.AcceptsIff | src/webhook-path-filter.ts:33-92 | A subscriber gets a webhook exactly if it accepts any, no deny rule for all or its own environment covers the path by segments, and one such allow rule does if there are any |
| WebhookPathFilter.ForeignRuleIsIrrelevant | src/webhook-path-filter.ts:70-73 | A rule for another environment changes nothing for a subscriber |
| WebhookPathFilter.ScopedDenyStopsItsOwn | src/webhook-path-filter.ts:70-92 | A deny rule for one environment stops its subscribers and no others |
| WebhookPathFilter.AcceptsIffWanted | src/webhook-path-filter.ts:62-92 | The nested filters decide by the set of rules in force: no allow rule or a matching one, and no matching deny rule |
| WebhookPathFilter.RuleOrderIsIrrelevant | src/webhook-path-filter.ts:49-92 | Neither order nor repetition of rules changes who is selected |
| WebhookPathFilter.CoveredRuleIsRedundant | src/webhook-path-filter.ts:49-92 | Dropping a rule covered by a shorter one of the same mode and no narrower scope never changes who is selected |
| WebhookFilterPath.NormalizeIdempotentIff | src/webhook-filter-path.ts:12-20 | Normalising twice changes nothing exactly when no whitespace stands just before the trailing slashes of the bare path |
| WebhookFilterPath.NormalizeIdempotent | src/webhook-filter-path.ts:12-20 | Without whitespace, normalising is idempotent |
| WebhookFilterPath.NormalizingTwiceMovesOn | src/webhook-filter-path.ts:12-20 | A family of paths for which it is not |
| WebhookFilterPath.NormalFormHasNoQuery | src/webhook-filter-path.ts:12-20 | A normal form has no query or fragment |
| WebhookFilterPath.NormalizeUndresses | src/webhook-filter-path.ts:12-20 | Normalising takes away query, fragment, outer whitespace and trailing slashes, adds the leading slash, and leaves everything else |
| WebhookFilterPath.NothingIsTheRoot | src/webhook-filter-path.ts:12-20 | A path of nothing but these is the root |
| WebhookFilterPath.Validate | src/webhook-filter-path.ts:26-47 | A valid path yields its normal form, never the root, within the length limit |
| WebhookFilterPath.ValidateIff | src/webhook-filter-path.ts:26-47 | Exactly which paths are valid; the scheme check and the second length check never decide |
| WebhookFilterPath.StoredPathIsValidIff | src/webhook-filter-path.ts:26-47 | The normal form of a valid path is valid as itself exactly when it does not end in whitespace, is no probe and shows no `..` segment |
| WebhookFilterPath.PathBeforeSpaceIsStored | src/webhook-filter-path.ts:26-47 | One space at the end gets a path past the `..` and probe checks, and the path is stored without it |
| WebhookRules.LimitHolds | src/webhook-fanout-settings-storage.ts:149-258 | No sequence of operations stores more than 32 rules for any route |
| WebhookRules.ParseIff | src/webhook-fanout-settings-storage.ts:149-180 | Exactly which arguments name a rule, which one, and which error the first wrong one gives |
| WebhookRules.RuleIsAsGiven | src/webhook-fanout-settings-storage.ts:149-216 | An accepted rule filters with the mode, the normal form of the path, and the environment or all, as it was given |
| WebhookRules.RoutesAreIsolated | src/webhook-fanout-settings-storage.ts:149-258 | No sequence of operations on other routes changes a rule |
| WebhookRules.OperatesOnItsRoute | src/webhook-fanout-settings-storage.ts:149-258 | An operation acts on the route its arguments name and on no other |
| WebhookRules.UpsertAgain | src/webhook-fanout-settings-storage.ts:149-216 | Storing an existing rule again succeeds at the limit and does not grow the table |
| WebhookRules.InsertThenDelete | src/webhook-fanout-settings-storage.ts:149-258 | Inserting a new rule and deleting it with the same arguments restores the table |
| WebhookRules.NamedAsListedIff | src/webhook-fanout-settings-storage.ts:219-258 | What the list shows of a rule names that rule exactly when the stored path does not end in whitespace, is no probe and shows no `..` segment |
| WebhookRules.DeletableAsListed | src/webhook-fanout-settings-storage.ts:219-258 | Exactly then, deleting what the list shows deletes the rule |
| WebhookRules.ListedSpaceNamesAnotherRule | src/webhook-fanout-settings-storage.ts:219-258 | A listed path that ends in whitespace is refused or names the rule without the whitespace |
| WebhookRules.UndeletableRules | src/webhook-fanout-settings-storage.ts:149-258 | The rules accepted for `/a /`, `/a/.. ` and `/x.php ` cannot be deleted as listed |
| WebhookRules.TrailingSpaceIsNotDeletable | src/webhook-fanout-settings-storage.ts:219-258 | Nor can any rule given with whitespace just before its trailing slashes |
| WebhookRules.RuleTable.UpsertRule | src/webhook-fanout-settings-storage.ts:149-216 | Stored exactly when the arguments parse and there is room or the key exists; refused otherwise, changing nothing |
| WebhookRules.RuleTable.DeleteRule | src/webhook-fanout-settings-storage.ts:219-258 | True exactly when the rule was there, and then only it is gone |
| WebhookRules.RuleTable.ListRules | src/webhook-fanout-settings-storage.ts:117-134 | Exactly the route's rules, strictly ordered by mode, path and environment |
| WebhookRules.RuleTable.GetSettings | src/webhook-fanout-settings-storage.ts:57-75 | The route's own flag and exactly its own rules |
| WebhookRules.RuleTable.SetDenyAll | src/webhook-fanout-settings-storage.ts:78-98 | Sets the flag of an allowed route and of no other |
| IngressUrls.PublicPathHasDotDotSegment | src/ingress-urls.ts:45-58 | True iff some number of decodings within the bound shows a `..` segment, early exit included |
| IngressUrls.PathSegmentsIncludeDotDot | src/ingress-urls.ts:68-77 | The loop over the segments finds a `..` iff there is one |
| IngressUrls.HasDotDotIff | src/ingress-urls.ts:68-77 | Exactly which paths show a `..`: those with two dots between slashes of either kind, parameters aside |
| IngressUrls.HexDigits | src/ingress-urls.ts:60-66 | Hexadecimal digits are read in either case |
| IngressUrls.PercentCharIff | src/ingress-urls.ts:60-66 | A character is decoded exactly where its own UTF-8 bytes stand percent-encoded |
| IngressUrls.DecodingSettles | src/ingress-urls.ts:60-66 | Every decoding that changes the path shortens it, so decoding settles |
| IngressUrls.SettledPathsAreFullyJudged | src/ingress-urls.ts:45-58 | A path that settles within the bound is judged on all its decodings |
| IngressUrls.BoundIsExact | src/ingress-urls.ts:45-58 | A `..` under n encodings is caught iff n is within the bound |
| IngressUrls.PlainPathIsJudgedAsIs | src/ingress-urls.ts:45-66 | A path without percent signs is judged as it stands |
| IngressUrls.StrippingKeepsPathsClean | src/public-ingress.ts:32-65 | Stripping a route prefix from a path that passes leaves a path that passes |
| OAuthState.SignedStateRoundTrip | src/oauth-state.ts:131-203 | A state signed with either secret gives its payload back at every time up to its expiry, and nothing after |
| OAuthState.UnwrapAcceptsIff | src/oauth-state.ts:170-203 | A state is accepted exactly when it is the signed form of a text under the secret's MAC and the text decodes to an unexpired version 1 payload |
| OAuthState.UnwrapWrapped | src/oauth-state.ts:131-203 | A wrapped state unwraps under exactly the secrets with the same MAC of its text |
| OAuthState.SignedStateReachesItsSubscriber | src/durable-object.ts:565-582 | A callback carrying an unexpired state minted for a subscriber of the route goes to it, or to nobody if it is not deliverable |
| OAuthState.ForeignStateGoesNowhere | src/durable-object.ts:577-580 | A state minted for another route goes to nobody |
| OAuthState.AllowingMorePaths | src/oauth-state.ts:66-96 | Allowing more paths never stops a proxied callback and never starts a fan-out |
| OAuthState.SignedStateNeverFansOut | src/oauth-state.ts:88-95 | A minted state never takes part in a fan-out |
| OAuthState.LooksLikeCallbackIff | src/oauth-callback-path.ts:68-71 | The pattern test holds exactly for paths with `oauth` or `auth` right before `callback` as whole segments, the first after a slash, in any case |
| OAuthState.ClassifyMeans | src/oauth-state.ts:66-96 | What each class says of allowlist, result, method, segments and state, and the other way round |
| Base64.UrlRoundTrip | src/tunnel-protocol.ts:198-204 | Unpadded base64url gives every byte sequence back |
| Base64.BodyRoundTrip | src/tunnel-protocol.ts:131-144 | Every body, the empty one included, survives the tunnel's encoding |
| Base64.PackCutsUp | src/tunnel-protocol.ts:131-144 | Every 24 bits are cut into four sextets, the most significant first (section 4 of RFC 4648) |
| Base64.AlphabetIs | src/tunnel-protocol.ts:198-204 | The two alphabets of RFC 4648 |
| TunnelProtocol.DecodeTunnelSubprotocolSecret | src/tunnel-protocol.ts:111-129 | The loop returns the text of the first token with the prefix |
| TunnelProtocol.SecretRoundTrip | src/tunnel-protocol.ts:107-129 | From any comma-separated header whose earlier tokens lack the prefix, the secret is received with lone surrogates replaced and a byte order mark at its start dropped |
| TunnelProtocol.SecretComesBackIff | src/tunnel-protocol.ts:107-129 | It is received unchanged exactly when it has no lone surrogate and no byte order mark at its start |
| TunnelProtocol.EchoesTheSecretsToken | src/durable-object.ts:1076-1087 | The protocol echoed to the client is the token whose secret was read |
| TunnelProtocol.TunnelPathRoundTrip | src/tunnel-protocol.ts:56-99 | The path a sidecar asks for names its route, for every allowed route |
| TunnelProtocol.TunnelPathIff | src/tunnel-protocol.ts:90-99 | Exactly which paths are tunnel paths, and of which route |
| TunnelProtocol.MarkedSecretIsCut | src/tunnel-protocol.ts:120-124 | A secret that starts with a byte order mark is received without it |
| Utf8.TextRoundTrip | src/tunnel-protocol.ts:107-124 | What encoding to UTF-8 and decoding makes of any text |
| Utf8.FirstOfEncoded | src/tunnel-protocol.ts:107-124 | The decoder reads back every scalar value from the bytes that encode it, and takes exactly those |
| IngressBody.ReadCapped | src/ingress-body.ts:5-43 | For every chunking: succeeds iff neither declared length nor total exceeds the cap, with the exact concatenation; otherwise reports the declared length or the first total over the cap; the chunks held are a prefix of the stream and never exceed the cap |
| IngressBody.ReadChunks | src/ingress-body.ts:22-35 | The reader loop |
| IngressBody.Assemble | src/ingress-body.ts:37-42 | The offset loop fills the buffer with the exact concatenation |
| IngressBody.StopsAtFirstOver | src/ingress-body.ts:28-33 | A rejected stream is rejected with the first prefix sum over the cap |
| IngressBody.FirstOverIsUnique | src/ingress-body.ts:28-33 | That size is determined by the chunks and the cap |
| IngressBody.NumberIsSmall | src/ingress-body.ts:46-52 | A declared length stays far below the integers a double represents exactly |
| IngressBody.DeclaredLengthOfDecimal | src/ingress-body.ts:46-52 | A header of padding, zeros and a decimal number declares that number, up to twelve digits |

## Left out

- The sidecar client, its reconnect loop and its control server: sockets, signals and HTTP plumbing.
- Dashboard pages, sessions and the management HTTP dispatch: user interface and thin wrappers, but for pruning the index.
- The hashes, MACs, JSON and form parsing themselves, and URL parsing: parameters of the model.
- The scanner-probe patterns and the header deny-lists: long constant sets.
- The validation of target base URLs, and the requests to public targets with their responses: only that a public delivery happens is modelled.
- SQL migrations, log sanitising, and the columns of a log row beyond its id and time.
- The storage of OAuth callback paths, a simpler copy of the rule table.
- The route id that each audit event carries, since all events of one object carry the same.
- What the runtime's base64 decoder makes of text it did not write: characters outside the alphabet are skipped.
- Handlers interleaved at their awaits, except for the lookup and the write of a join.
- Hibernation, which would drop requests in flight and the audit queue.
- Upgrade: leaves out the query parsing and the `hello` message, whose fields are those of the answer.
- Register: starts with a target base URL that passed validation.
- Deliver: leaves out the forwarded headers and body, and the response of a public target.
- HandlePublicIngress: has the event as it is handed to the index, before its fields are sanitised.
- AlarmCoverage: gives no absolute deadline, because repeated detaches move the last scheduling time forward; rows backed by a current socket need no alarm.
- RemainingPathIsSuffix: is stated for the route prefix followed by nothing or a slash; RemainingPathWithoutPrefix is the rest.
