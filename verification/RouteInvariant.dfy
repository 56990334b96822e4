/** What holds in every reachable state of a per-route object. */
module RouteInvariant {
  import opened Wrappers
  import opened RouteState
  import RouteId

  // ---- the parts of the invariant ------------------------------------------------

  predicate RowOk(row: Row, clock: int) {
    && row.expiresAt == row.lastHeartbeatAt + SUBSCRIBER_TTL_MS
    && 0 <= row.createdAt <= row.lastHeartbeatAt <= clock
    && row.forwardToken != ""
    && row.environmentId != Some("")
  }

  ghost predicate RowsOk(rows: map<string, Row>, usedIds: set<string>, clock: int) {
    forall id :: id in rows ==> id in usedIds && RowOk(rows[id], clock)
  }

  /** At most one row per environment id. */
  ghost predicate EnvironmentsUnique(rows: map<string, Row>) {
    forall a, b :: a in rows && b in rows && rows[a].environmentId.Some? ==>
      rows[a].environmentId == rows[b].environmentId ==> a == b
  }

  /** Every OAuth binding names an existing row. */
  ghost predicate BindingsOk(bindings: map<string, Binding>, rows: map<string, Row>) {
    forall st :: st in bindings ==> bindings[st].subscriberId in rows
  }

  ghost predicate SocketTags(sockets: map<nat, Socket>, usedIds: set<string>) {
    forall w :: w in sockets ==> sockets[w].tag in usedIds
  }

  /**
   An OPEN socket's close is still to be logged; such a socket belongs to a tunnel row and to no other
   socket's row.
   */
  ghost predicate SocketsOk(sockets: map<nat, Socket>, ignored: set<nat>, rows: map<string, Row>) {
    && (forall w :: w in sockets && sockets[w].open ==> w !in ignored)
    && (forall w :: w in sockets && w !in ignored ==>
          sockets[w].tag in rows && rows[sockets[w].tag].transport == Tunnel)
    && (forall v, w :: v in sockets && w in sockets && v !in ignored && w !in ignored ==>
          sockets[v].tag == sockets[w].tag ==> v == w)
  }

  /** Only environment tunnels outlive their socket. */
  ghost predicate AnonymousHaveSocket(sockets: map<nat, Socket>, ignored: set<nat>, rows: map<string, Row>) {
    forall id :: id in rows && rows[id].transport == Tunnel && rows[id].environmentId.None? ==>
      HasCurrent(sockets, ignored, id)
  }

  /** Every pending entry names a tunnel row. */
  ghost predicate PendingOk(pending: map<string, Pending>, rows: map<string, Row>) {
    forall k :: k in pending ==> pending[k].subscriberId in rows && rows[pending[k].subscriberId].transport == Tunnel
  }

  /**
   Every promise is settled at most once; it is unsettled exactly while its own timer is armed;
   and every pending entry is an unsettled promise whose timer would delete that very entry.
   */
  ghost predicate SettlementOk(r: Requests) {
    && (forall p: nat :: p in r.outcomes <==> p < r.nextPromise)
    && (forall p :: p in r.timers ==> p in r.outcomes)
    && (forall p :: p in r.outcomes ==> |r.outcomes[p]| <= 1)
    && (forall p :: p in r.outcomes ==> (|r.outcomes[p]| == 0 <==> p in r.timers))
    && (forall k :: k in r.pending ==>
          r.pending[k].promise in r.timers && r.timers[r.pending[k].promise].requestId == k)
  }

  /** No armed timer is further away than the delivery timeout. */
  ghost predicate TimersSoon(timers: map<nat, Timer>, now: int) {
    forall p :: p in timers ==> timers[p].dueAt <= now + DELIVERY_TIMEOUT_MS
  }

  // ---- replaying the audit log ---------------------------------------------------

  /** The last event about a subscriber, rejections aside. */
  function LastAction(events: seq<Event>, id: string): (a: Option<Action>)
    ensures a != Some(Rejected)
  {
    if events == [] then None
    else
      var e := events[|events| - 1];
      if e.subscriberId == id && e.action != Rejected then Some(e.action) else LastAction(events[..|events| - 1], id)
  }

  /** Public, or a tunnel with a socket whose close is still to be logged. */
  ghost predicate InLiveSet(rows: map<string, Row>, sockets: map<nat, Socket>, ignored: set<nat>, id: string) {
    id in rows && (rows[id].transport == Public || HasCurrent(sockets, ignored, id))
  }

  ghost predicate ReplayOk(history: seq<Event>, rows: map<string, Row>, sockets: map<nat, Socket>, ignored: set<nat>) {
    forall id :: LastAction(history, id) == Some(Connected) <==> InLiveSet(rows, sockets, ignored, id)
  }

  ghost predicate HistoryIds(history: seq<Event>, usedIds: set<string>) {
    forall e :: e in history ==> e.subscriberId in usedIds
  }

  /** No `connected` event finds its subscriber already connected. */
  ghost predicate Alternates(history: seq<Event>) {
    forall i :: 0 <= i < |history| && history[i].action == Connected ==>
      LastAction(history[..i], history[i].subscriberId) != Some(Connected)
  }

  // ---- router index and alarm ------------------------------------------------------

  ghost predicate IsActive(rows: map<string, Row>, sockets: map<nat, Socket>, id: string) {
    id in rows && (rows[id].transport == Public || HasOpen(sockets, id) || rows[id].environmentId.Some?)
  }

  /** A route with an active subscriber is in the router index. */
  ghost predicate IndexOk(indexed: bool, rows: map<string, Row>, sockets: map<nat, Socket>) {
    forall id :: IsActive(rows, sockets, id) ==> indexed
  }

  ghost predicate RouteIdOk(s: State) {
    && RouteId.IsAllowedRouteId(s.name)
    && (s.routeId.Some? ==> s.routeId.value == s.name)
    && (s.rows != map[] || s.alarm.Some? ==> s.routeId.Some?)
  }

  /** Public rows, and tunnel rows no longer backed by a current socket. */
  ghost predicate NeedsAlarm(rows: map<string, Row>, sockets: map<nat, Socket>, ignored: set<nat>, id: string) {
    id in rows && (rows[id].transport == Public || !HasCurrent(sockets, ignored, id))
  }

  function Later(a: int, b: int): int { if a < b then b else a }

  ghost predicate AlarmOk(alarm: Option<int>, scheduledAt: int, rows: map<string, Row>, sockets: map<nat, Socket>,
                          ignored: set<nat>) {
    forall id :: NeedsAlarm(rows, sockets, ignored, id) ==>
      alarm.Some? && alarm.value <= Later(rows[id].expiresAt, scheduledAt + CLEANUP_MIN_DELAY_MS)
  }

  /** The joint invariant at clock value `now`, without what `syncIndex` and `scheduleCleanup` restore. */
  ghost predicate Core(s: State, now: int) {
    && now >= 0
    && RowsOk(s.rows, s.usedIds, now)
    && EnvironmentsUnique(s.rows)
    && BindingsOk(s.bindings, s.rows)
    && SocketTags(s.sockets, s.usedIds)
    && SocketsOk(s.sockets, s.ignored, s.rows)
    && AnonymousHaveSocket(s.sockets, s.ignored, s.rows)
    && PendingOk(s.requests.pending, s.rows)
    && SettlementOk(s.requests)
    && TimersSoon(s.requests.timers, now)
    && HistoryIds(History(s), s.usedIds)
    && ReplayOk(History(s), s.rows, s.sockets, s.ignored)
    && Alternates(History(s))
  }

  ghost predicate InvAt(s: State, now: int) {
    && Core(s, now)
    && IndexOk(s.indexed, s.rows, s.sockets)
    && RouteIdOk(s)
    && AlarmOk(s.alarm, s.scheduledAt, s.rows, s.sockets, s.ignored)
  }

  ghost predicate Inv(s: State) {
    InvAt(s, s.clock)
  }
}
