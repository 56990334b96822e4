/**
 The state of one per-route object and the value-level meaning of its
 primitives (src/durable-object.ts). SQL tables are maps from their primary
 key; a Durable Object's memory (`pending`, the audit queue, the ignore set)
 and its alarm sit beside them.
 */
module RouteState {
  import opened Wrappers
  import opened Minimum

  const SUBSCRIBER_TTL_MS := 300_000
  const DELIVERY_TIMEOUT_MS := 10_000
  const TUNNEL_STALE_MS := 90_000
  const OAUTH_STATE_TTL_MS := 900_000
  const OAUTH_STATE_MAX_LENGTH := 2048
  const CLEANUP_PROBE_MS := 30_000
  const CLEANUP_MIN_DELAY_MS := 1_000

  datatype Transport = Public | Tunnel

  /** SHA-256 digest of a connection token, taken as a free injective constructor. */
  datatype Digest = NoDigest | Sha256(token: string)

  /** One row of the `subscribers` table; its primary key is the map key. */
  datatype Row = Row(
    transport: Transport,
    targetBaseUrl: string,
    forwardToken: string,
    tokenHash: Digest,
    environmentId: Option<string>,
    acceptWebhooks: bool,
    createdAt: int,
    lastHeartbeatAt: int,
    expiresAt: int)

  /** One row of `oauth_bindings`, keyed by the OAuth state. */
  datatype Binding = Binding(subscriberId: string, expiresAt: int)

  /** A socket listed by `getWebSockets`: OPEN (`readyState` 1) or CLOSING. */
  datatype Socket = Socket(tag: string, open: bool, lastPing: Option<int>)

  /** An entry of the `pending` map; `promise` names the promise and its own timer. */
  datatype Pending = Pending(subscriberId: string, promise: nat)

  /** An armed delivery timer: the pending key it deletes and when it is due. */
  datatype Timer = Timer(requestId: string, dueAt: int)

  /** One call of a promise's `resolve` or `reject`. */
  datatype Outcome = Answered | Errored | TimedOut | SendFailed | NoSocket | SubscriberGone(cause: string)

  /** In-flight tunnel requests, their timers, and every settle call on every promise made so far. */
  datatype Requests = Requests(
    pending: map<string, Pending>,
    timers: map<nat, Timer>,
    outcomes: map<nat, seq<Outcome>>,
    nextPromise: nat)

  datatype Action = Connected | Disconnected | Rejected
  datatype Reason =
    Registered | Reclaimed | Replaced | Deregistered | SocketClosed | Expired | StaleTunnel | EnvironmentInUse

  /** A connection audit event. */
  datatype Event = Event(
    action: Action,
    reason: Reason,
    subscriberId: string,
    environmentId: Option<string>,
    transport: Transport,
    target: Option<string>,
    clientIp: Option<string>)

  datatype State = State(
    name: string,                     // the route this object serves
    routeId: Option<string>,          // `meta.route_id`
    rows: map<string, Row>,
    bindings: map<string, Binding>,
    sockets: map<nat, Socket>,
    ignored: set<nat>,                // `ignoreDisconnectLog`
    requests: Requests,
    queued: seq<Event>,               // `pendingConnectionLog`
    flushed: seq<Event>,              // what the router index has been sent
    indexed: bool,                    // the router index holds a row for this route
    alarm: Option<int>,
    scheduledAt: int,                 // when `scheduleCleanup` last ran
    clock: int,
    usedIds: set<string>)             // every subscriber id handed out so far

  /** Flushed events followed by queued ones. */
  function History(s: State): seq<Event> { s.flushed + s.queued }

  // ---- sockets -------------------------------------------------------------

  /** `getWebSockets(id).length > 0`. */
  ghost predicate Listed(sockets: map<nat, Socket>, id: string) {
    exists w :: w in sockets && sockets[w].tag == id
  }

  /** `liveSocket(id)` finds something. */
  ghost predicate HasOpen(sockets: map<nat, Socket>, id: string) {
    exists w :: w in sockets && sockets[w].tag == id && sockets[w].open
  }

  /** A listed socket whose disconnect is still to be logged. */
  ghost predicate HasCurrent(sockets: map<nat, Socket>, ignored: set<nat>, id: string) {
    exists w :: w in sockets && sockets[w].tag == id && w !in ignored
  }

  /** `closeSockets(id, { ignoreDisconnectLog: true })`. */
  ghost function TagSet(sockets: map<nat, Socket>, id: string): set<nat> {
    set w | w in sockets && sockets[w].tag == id
  }

  ghost function ClosedFor(sockets: map<nat, Socket>, id: string): map<nat, Socket> {
    map w | w in sockets :: if sockets[w].tag == id then sockets[w].(open := false) else sockets[w]
  }

  ghost function CloseSockets(s: State, id: string): State {
    s.(sockets := ClosedFor(s.sockets, id), ignored := s.ignored + TagSet(s.sockets, id))
  }

  // ---- in-flight tunnel requests ---------------------------------------------

  ghost function PromisesOf(pending: map<string, Pending>, ids: set<string>): set<nat> {
    set k | k in pending && pending[k].subscriberId in ids :: pending[k].promise
  }

  ghost function Settled(outcomes: map<nat, seq<Outcome>>, promises: set<nat>, o: Outcome): map<nat, seq<Outcome>> {
    map p | p in outcomes :: if p in promises then outcomes[p] + [o] else outcomes[p]
  }

  ghost function PendingWithout(pending: map<string, Pending>, ids: set<string>): map<string, Pending> {
    map k | k in pending && pending[k].subscriberId !in ids :: pending[k]
  }

  /** Reject every pending request of the given subscribers and clear its timer. */
  ghost function Failed(r: Requests, ids: set<string>, o: Outcome): Requests {
    var hit := PromisesOf(r.pending, ids);
    Requests(PendingWithout(r.pending, ids), r.timers - hit, Settled(r.outcomes, hit, o), r.nextPromise)
  }

  ghost function FailFor(s: State, ids: set<string>, o: Outcome): State {
    s.(requests := Failed(s.requests, ids, o))
  }

  /** A settled answer: the pending entry goes, its timer is cleared, its promise is settled. */
  ghost function Answer(r: Requests, requestId: string, o: Outcome): Requests {
    if requestId !in r.pending then r
    else
      var p := r.pending[requestId].promise;
      Requests(r.pending - {requestId}, r.timers - {p}, Settled(r.outcomes, {p}, o), r.nextPromise)
  }

  /** The timer deletes whatever entry its key now holds, and rejects its own promise. */
  ghost function TimeOut(r: Requests, promise: nat): Requests {
    if promise !in r.timers then r
    else Requests(r.pending - {r.timers[promise].requestId}, r.timers - {promise},
                  Settled(r.outcomes, {promise}, TimedOut), r.nextPromise)
  }

  /** A promise settled on the spot. */
  ghost function SettledNow(r: Requests, pending: map<string, Pending>, o: Outcome): Requests {
    Requests(pending, r.timers, r.outcomes[r.nextPromise := [o]], r.nextPromise + 1)
  }

  /** A request sent: its promise waits, taking over its key in `pending`. */
  ghost function Sent(r: Requests, id: string, requestId: string, now: int): Requests {
    var p := r.nextPromise;
    Requests(r.pending[requestId := Pending(id, p)], r.timers[p := Timer(requestId, now + DELIVERY_TIMEOUT_MS)],
             r.outcomes[p := []], p + 1)
  }

  // ---- rows ----------------------------------------------------------------

  function TargetFor(transport: Transport, targetBaseUrl: string): Option<string> {
    if transport == Tunnel then Some("reverse-tunnel")
    else if targetBaseUrl == "" then None else Some(targetBaseUrl)
  }

  function Gone(row: Row, id: string, reason: Reason): Event {
    Event(Disconnected, reason, id, row.environmentId, row.transport, TargetFor(row.transport, row.targetBaseUrl), None)
  }

  ghost function BindingsWithout(bindings: map<string, Binding>, ids: set<string>): map<string, Binding> {
    map st | st in bindings && bindings[st].subscriberId !in ids :: bindings[st]
  }

  /** `removeSubscriberRow`. */
  ghost function RemoveRow(s: State, id: string, reason: Reason): State {
    if id !in s.rows then s
    else s.(queued := s.queued + [Gone(s.rows[id], id, reason)],
            rows := s.rows - {id},
            bindings := BindingsWithout(s.bindings, {id}))
  }

  function Renewed(row: Row, now: int): Row {
    row.(lastHeartbeatAt := now, expiresAt := now + SUBSCRIBER_TTL_MS)
  }

  /** `extendSubscriber`: an UPDATE, so a missing row stays missing. */
  function Extend(s: State, id: string, now: int): State {
    if id in s.rows then s.(rows := s.rows[id := Renewed(s.rows[id], now)]) else s
  }

  // ---- purgeExpired as one filter --------------------------------------------

  /** Whether a row is still there after a purge at `now`. */
  predicate Survives(row: Row, listed: bool, now: int) {
    if row.transport == Public then row.expiresAt > now
    else listed || (row.environmentId.Some? && row.expiresAt > now)
  }

  ghost function Removed(s: State, now: int): set<string> {
    set id | id in s.rows && !Survives(s.rows[id], Listed(s.sockets, id), now)
  }

  /** A surviving row; an expired tunnel row that survives has a listed socket and is renewed. */
  function Kept(row: Row, now: int): Row {
    if row.transport == Tunnel && row.expiresAt <= now then Renewed(row, now) else row
  }

  ghost function KeptRows(s: State, now: int): map<string, Row> {
    map id | id in s.rows && Survives(s.rows[id], Listed(s.sockets, id), now) :: Kept(s.rows[id], now)
  }

  ghost function KeptBindings(s: State, now: int): map<string, Binding> {
    map st | st in s.bindings && s.bindings[st].expiresAt > now && s.bindings[st].subscriberId in KeptRows(s, now)
      :: s.bindings[st]
  }

  function RemovalReason(row: Row, now: int): Reason {
    if row.expiresAt <= now then Expired else SocketClosed
  }

  /** One `disconnected` event per removed row, in the order the loops reach them. */
  ghost function RemovalEvents(rows: map<string, Row>, order: seq<string>, now: int): (events: seq<Event>)
    ensures |events| == |order|
  {
    seq(|order|, i requires 0 <= i < |order| =>
      if order[i] in rows then Gone(rows[order[i]], order[i], RemovalReason(rows[order[i]], now))
      else Event(Disconnected, Expired, order[i], None, Public, None, None))
  }

  ghost predicate Enumerates(order: seq<string>, ids: set<string>) {
    && (forall i, j :: 0 <= i < j < |order| ==> order[i] != order[j])
    && (forall id :: id in order <==> id in ids)
  }

  function LastSeen(row: Row, socket: Socket): int {
    var recorded := if row.lastHeartbeatAt != 0 then row.lastHeartbeatAt else row.createdAt;
    if socket.lastPing.Some? && socket.lastPing.value > recorded then socket.lastPing.value else recorded
  }

  predicate IsStale(rows: map<string, Row>, socket: Socket, now: int) {
    && socket.open
    && socket.tag in rows
    && rows[socket.tag].transport == Tunnel
    && now - LastSeen(rows[socket.tag], socket) > TUNNEL_STALE_MS
  }

  ghost function StaleClosed(sockets: map<nat, Socket>, rows: map<string, Row>, now: int): map<nat, Socket> {
    map w | w in sockets :: if IsStale(rows, sockets[w], now) then sockets[w].(open := false) else sockets[w]
  }

  /** `purgeExpired(now)`; `order` lists the removed rows as the loops visit them. */
  ghost function Purge(s: State, now: int, order: seq<string>): State {
    var failed := FailFor(s, Removed(s, now), SubscriberGone("tunnel_disconnected"));
    failed.(rows := KeptRows(s, now),
            bindings := KeptBindings(s, now),
            sockets := StaleClosed(s.sockets, KeptRows(s, now), now),
            queued := s.queued + RemovalEvents(s.rows, order, now))
  }

  // ---- audit queue, router index, alarm ----------------------------------------

  function Flush(s: State): State {
    s.(flushed := s.flushed + s.queued, queued := [])
  }

  /** `syncIndex`: flush, then add or remove this route in the router index. */
  function Sync(s: State): State {
    var f := Flush(s);
    if s.routeId.None? then f else f.(indexed := s.rows != map[])
  }

  ghost function Expiries(rows: map<string, Row>): set<int> {
    set id | id in rows :: rows[id].expiresAt
  }

  ghost predicate HasTunnelRow(rows: map<string, Row>) {
    exists id :: id in rows && rows[id].transport == Tunnel
  }

  function Earlier(a: Option<int>, b: Option<int>): Option<int> {
    if a.None? then b else if b.None? then a
    else if a.value <= b.value then a else b
  }

  function Positive(a: Option<int>): Option<int> {
    if a.Some? && a.value > 0 then a else None
  }

  ghost function FirstExpiry(rows: map<string, Row>): Option<int> {
    if rows == map[] then None
    else
      assert exists id :: id in rows;
      var id :| id in rows;
      assert rows[id].expiresAt in Expiries(rows);
      Some(MinOf(Expiries(rows)))
  }

  /** What `scheduleCleanup(now)` leaves armed. */
  ghost function CleanupAt(rows: map<string, Row>, now: int): Option<int> {
    var probe := if HasTunnelRow(rows) then Some(now + CLEANUP_PROBE_MS) else None;
    var soonest := Earlier(Positive(FirstExpiry(rows)), Positive(probe));
    if soonest.None? then None
    else Some(if soonest.value < now + CLEANUP_MIN_DELAY_MS then now + CLEANUP_MIN_DELAY_MS else soonest.value)
  }

  ghost function Schedule(s: State, now: int): State {
    s.(alarm := CleanupAt(s.rows, now), scheduledAt := now)
  }

  // ---- joining -------------------------------------------------------------

  /** The options of `reclaimOrCreate`. */
  datatype Join = Join(
    environmentId: Option<string>,
    transport: Transport,
    targetBaseUrl: string,
    presented: string,                // presented connection token, "" when absent
    acceptWebhooks: bool,
    clientIp: Option<string>)

  /** Random values drawn for one join. */
  datatype Draw = Draw(subscriberId: string, forwardToken: string, connectionToken: string)

  ghost predicate HasEnvironment(rows: map<string, Row>, environmentId: Option<string>) {
    environmentId.Some? && exists id :: id in rows && rows[id].environmentId == environmentId
  }

  /** `lookupSubscriberByEnvironment`. */
  ghost function EnvironmentOwner(rows: map<string, Row>, environmentId: Option<string>): (id: string)
    requires HasEnvironment(rows, environmentId)
    ensures id in rows && rows[id].environmentId == environmentId
  {
    var id :| id in rows && rows[id].environmentId == environmentId; id
  }

  /** `subscriberIsLive`. */
  ghost predicate IsLive(s: State, id: string)
    requires id in s.rows
  {
    s.rows[id].transport == Tunnel ==> Listed(s.sockets, id)
  }

  /** `connectionTokenMatches`. */
  predicate TokenMatches(token: string, expected: Digest) {
    expected.Sha256? && expected.token == token
  }

  /** `verifyConnectionToken`: only the digest of the token is stored. */
  predicate Verifies(rows: map<string, Row>, subscriberId: string, token: string) {
    subscriberId in rows && TokenMatches(token, rows[subscriberId].tokenHash)
  }

  /** The join names a live environment and does not prove control of it. */
  ghost predicate IsRejected(s: State, j: Join) {
    HasEnvironment(s.rows, j.environmentId) &&
    var id := EnvironmentOwner(s.rows, j.environmentId);
    IsLive(s, id) && !TokenMatches(j.presented, s.rows[id].tokenHash)
  }

  ghost function RejectJoin(s: State, j: Join): State
    requires IsRejected(s, j)
  {
    var id := EnvironmentOwner(s.rows, j.environmentId);
    var row := s.rows[id];
    s.(queued := s.queued +
        [Event(Rejected, EnvironmentInUse, id, row.environmentId, row.transport,
               TargetFor(row.transport, row.targetBaseUrl), j.clientIp)])
  }

  ghost function JoinedId(s: State, j: Join, draw: Draw): string {
    if HasEnvironment(s.rows, j.environmentId) then EnvironmentOwner(s.rows, j.environmentId) else draw.subscriberId
  }

  function ConnectedEvent(id: string, j: Join, reason: Reason): Event {
    Event(Connected, reason, id, j.environmentId, j.transport, TargetFor(j.transport, j.targetBaseUrl), j.clientIp)
  }

  function ReclaimedRow(previous: Row, j: Join, draw: Draw, now: int): Row {
    Row(j.transport, j.targetBaseUrl,
        if previous.forwardToken == "" then draw.forwardToken else previous.forwardToken,
        Sha256(draw.connectionToken), j.environmentId, j.acceptWebhooks,
        previous.createdAt, now, now + SUBSCRIBER_TTL_MS)
  }

  function CreatedRow(j: Join, draw: Draw, now: int): Row {
    Row(j.transport, j.targetBaseUrl, draw.forwardToken, Sha256(draw.connectionToken), j.environmentId,
        j.acceptWebhooks, now, now, now + SUBSCRIBER_TTL_MS)
  }

  /** The accepting branches of `reclaimOrCreate`. */
  ghost function Attach(s: State, j: Join, draw: Draw, now: int): State {
    if HasEnvironment(s.rows, j.environmentId) then
      var id := EnvironmentOwner(s.rows, j.environmentId);
      var row := s.rows[id];
      var farewell := if IsLive(s, id) then [Gone(row, id, Replaced)] else [];
      var quiet := FailFor(CloseSockets(s, id), {id}, SubscriberGone("subscriber_replaced"));
      quiet.(rows := s.rows[id := ReclaimedRow(row, j, draw, now)],
             queued := s.queued + farewell + [ConnectedEvent(id, j, Reclaimed)])
    else
      var id := draw.subscriberId;
      s.(rows := s.rows[id := CreatedRow(j, draw, now)],
         queued := s.queued + [ConnectedEvent(id, j, Registered)],
         usedIds := s.usedIds + {id})
  }

  /** `acceptWebSocket(server, [id])`. */
  function Accept(s: State, id: string, socket: nat): State {
    s.(sockets := s.sockets[socket := Socket(id, true, None)])
  }

  // ---- delivery ------------------------------------------------------------

  /** `deliverySubscribers`: public rows, and tunnel rows with an OPEN socket. */
  ghost function Deliverable(s: State): set<string> {
    set id | id in s.rows && (s.rows[id].transport == Public || HasOpen(s.sockets, id))
  }

  /** `getActiveSubscribers`: environment tunnels count even while parked. */
  ghost function Active(s: State): set<string> {
    set id | id in s.rows &&
      (s.rows[id].transport == Public || HasOpen(s.sockets, id) || s.rows[id].environmentId.Some?)
  }

  /** What sending does to the requests, over an OPEN socket or not, whose `send` throws or not. */
  ghost function Sending(r: Requests, open: bool, throws: bool, id: string, requestId: string, now: int): Requests {
    if !open then SettledNow(r, r.pending, NoSocket)
    else if throws then SettledNow(r, r.pending - {requestId}, SendFailed)
    else Sent(r, id, requestId, now)
  }

  /** `sendAndWait`; `broken` names subscribers whose `send` throws. */
  ghost function SendAndWait(s: State, id: string, requestId: string, broken: set<string>, now: int): State {
    s.(requests := Sending(s.requests, HasOpen(s.sockets, id), id in broken, id, requestId, now))
  }

  /** `deliver`: renew the row, then send over its tunnel or fetch its public target. */
  ghost function Deliver(s: State, id: string, requestId: string, tooLarge: bool, broken: set<string>,
                         now: int): State {
    if id !in s.rows then s
    else if s.rows[id].transport == Public || tooLarge then Extend(s, id, now)
    else SendAndWait(Extend(s, id, now), id, requestId, broken, now)
  }

  ghost function DeliverAll(s: State, ids: seq<string>, requestId: string, tooLarge: bool, broken: set<string>,
                            now: int): State
    decreases |ids|
  {
    if ids == [] then s
    else Deliver(DeliverAll(s, ids[..|ids| - 1], requestId, tooLarge, broken, now), ids[|ids| - 1], requestId,
                 tooLarge, broken, now)
  }

  /** A verified signed OAuth state, as far as routing reads it. */
  datatype Signed = Signed(sub: string, route: string)

  ghost function Sole(ids: set<string>): Option<string> {
    if |ids| == 1 then
      var id :| id in ids; Some(id)
    else None
  }

  /** `resolveOAuthSubscriber`; `signed` is the verified payload of `state`, if it verifies. */
  ghost function OAuthTarget(s: State, state: Option<string>, signed: Option<Signed>, now: int): Option<string> {
    var candidates := Deliverable(s);
    if state.Some? && state.value != "" then
      if signed.Some? then
        if s.routeId.Some? && signed.value.route != s.routeId.value then None
        else if signed.value.sub in candidates then Some(signed.value.sub) else None
      else if state.value in s.bindings && s.bindings[state.value].expiresAt > now then
        var bound := s.bindings[state.value].subscriberId;
        if bound in candidates then Some(bound) else None
      else Sole(candidates)
    else Sole(candidates)
  }

  /** What a client can say over its socket. */
  datatype ClientMessage = Response(id: string) | Error(id: string) | Beat | Noise

  /** An environment row whose socket is gone, with its lease renewed. */
  ghost function ParkedState(f: State, id: string, reason: Reason, now: int): State
    requires id in f.rows
  {
    f.(queued := f.queued + [Event(Disconnected, reason, id, f.rows[id].environmentId, Tunnel, Some("reverse-tunnel"),
                                   None)],
       rows := f.rows[id := Renewed(f.rows[id], now)])
  }

  /** `detachSocket`, once the socket has left the list. */
  ghost function Detach(s: State, socket: nat, id: string, reason: Reason, now: int): State {
    var f := FailFor(s, {id}, SubscriberGone("tunnel_disconnected"));
    if socket in s.ignored then f
    else if id in f.rows && f.rows[id].environmentId.Some? then
      Sync(Schedule(ParkedState(f, id, reason, now), now))
    else Sync(RemoveRow(f, id, reason))
  }
}
