/**
 The handlers of the per-route object as steps over its state, and runs of them
 (src/durable-object.ts). A step carries everything its handler does not decide:
 the clock, the caller's arguments, fresh random values, the order in which the
 database returns rows, and which sends throw.
 */
module RouteSteps {
  import opened Wrappers
  import opened RouteState
  import RouteId
  import WebhookPathFilter

  datatype Step =
    | Fetch(now: int, routeId: string, environmentParam: Option<string>, acceptWebhooks: bool, presented: string,
            clientIp: Option<string>, draw: Draw, socket: nat, order: seq<string>)
    | Register(now: int, routeId: string, environmentId: Option<string>, targetBaseUrl: string, acceptWebhooks: bool,
               presented: string, clientIp: Option<string>, draw: Draw, order: seq<string>)
    | Heartbeat(now: int, subscriberId: string, order: seq<string>)
    | Deregister(now: int, subscriberId: string, order: seq<string>)
    | Bind(now: int, subscriberId: string, boundState: string, order: seq<string>)
    | GetActive(now: int, order: seq<string>)
    | Prune(now: int, order: seq<string>)
    | CountFanout(now: int, order: seq<string>)
    | FanOut(now: int, path: string, settings: WebhookPathFilter.Settings, targets: seq<string>, requestId: string,
             tooLarge: bool, broken: set<string>, order: seq<string>)
    | ProxyOAuth(now: int, oauthState: Option<string>, signed: Option<Signed>, requestId: string, tooLarge: bool,
                 broken: set<string>, order: seq<string>)
    | Message(now: int, socket: nat, message: ClientMessage)
    | SocketGone(now: int, socket: nat, stale: bool)
    | PeerClosing(now: int, socket: nat)
    | AutoPong(now: int, socket: nat)
    | TimerFires(now: int, promise: nat)
    | AlarmFires(now: int, order: seq<string>)
    | FlushLog(now: int)
    | AddToIndex(now: int)

  // ---- joining ---------------------------------------------------------------

  /** `parseEnvironmentId` rejects the parameter. */
  predicate BadEnvironmentParam(param: Option<string>) {
    param.Some? && param.value != "" && !RouteId.IsAllowedEnvironmentId(param.value)
  }

  function NonEmpty(value: Option<string>): Option<string> {
    if value == Some("") then None else value
  }

  function TunnelJoin(step: Step): Join
    requires step.Fetch?
  {
    Join(NonEmpty(step.environmentParam), Tunnel, "", step.presented, step.acceptWebhooks, step.clientIp)
  }

  function PublicJoin(step: Step): Join
    requires step.Register?
  {
    Join(NonEmpty(step.environmentId), Public, step.targetBaseUrl, step.presented, step.acceptWebhooks, step.clientIp)
  }

  /** Purged, with the route id stored: what a join starts from. */
  ghost function Welcomed(s: State, now: int, routeId: string, order: seq<string>): State {
    Purge(s, now, order).(routeId := Some(routeId))
  }

  /** A tunnel join's effect: a rejection is only logged; otherwise the new socket is listed last. */
  ghost function Admitted(w: State, j: Join, draw: Draw, now: int, socket: nat): State {
    if IsRejected(w, j) then Flush(RejectJoin(w, j))
    else Accept(Sync(Attach(w, j, draw, now)), JoinedId(w, j, draw), socket)
  }

  ghost function Enrolled(w: State, j: Join, draw: Draw, now: int): State {
    if IsRejected(w, j) then Flush(RejectJoin(w, j))
    else Sync(Schedule(Attach(w, j, draw, now), now))
  }

  ghost function NextFetch(s: State, step: Step): State
    requires step.Fetch?
  {
    if BadEnvironmentParam(step.environmentParam) then s
    else
      Admitted(Welcomed(s, step.now, step.routeId, step.order), TunnelJoin(step), step.draw, step.now, step.socket)
  }

  ghost function NextRegister(s: State, step: Step): State
    requires step.Register?
  {
    Enrolled(Welcomed(s, step.now, step.routeId, step.order), PublicJoin(step), step.draw, step.now)
  }

  // ---- subscriber calls --------------------------------------------------------

  ghost function NextHeartbeat(s: State, now: int, id: string, order: seq<string>): State {
    var p := Purge(s, now, order);
    if id in p.rows && p.rows[id].expiresAt > now then Flush(Schedule(Extend(p, id, now), now)) else Flush(p)
  }

  /** The first half of `deregister`: sockets, requests and row of the subscriber go. */
  ghost function Dropped(s: State, id: string): State {
    RemoveRow(FailFor(CloseSockets(s, id), {id}, SubscriberGone("subscriber_disconnected")), id, Deregistered)
  }

  ghost function NextDeregister(s: State, now: int, id: string, order: seq<string>): State {
    var p := Purge(Dropped(s, id), now, order);
    Sync(if p.rows == map[] then p.(alarm := None) else Schedule(p, now))
  }

  predicate BindableState(oauthState: string) {
    0 < |oauthState| <= OAUTH_STATE_MAX_LENGTH
  }

  ghost function NextBind(s: State, now: int, id: string, oauthState: string, order: seq<string>): State {
    if !BindableState(oauthState) then s
    else
      var p := Purge(s, now, order);
      if id !in p.rows then Flush(p)
      else Flush(p.(bindings := p.bindings[oauthState := Binding(id, now + OAUTH_STATE_TTL_MS)]))
  }

  /** Listing active subscribers, then dropping the route from the index when there are none. */
  ghost function NextPrune(s: State, now: int, order: seq<string>): State {
    var p := Flush(Purge(s, now, order));
    if Active(p) == {} then p.(indexed := false) else p
  }

  // ---- deliveries --------------------------------------------------------------

  function AsSubscriber(id: string, row: Row): WebhookPathFilter.Subscriber {
    WebhookPathFilter.Subscriber(id, row.environmentId, row.acceptWebhooks)
  }

  /** A deliverable subscriber passes the webhook filter for this path. */
  ghost predicate IsFanoutTarget(s: State, path: string, settings: WebhookPathFilter.Settings, id: string) {
    && id in Deliverable(s)
    && !settings.denyAllWebhooks
    && WebhookPathFilter.Accepts(AsSubscriber(id, s.rows[id]), path, settings.rules)
  }

  ghost predicate ByCreation(rows: map<string, Row>, ids: seq<string>) {
    && (forall i :: 0 <= i < |ids| ==> ids[i] in rows)
    && (forall i, j :: 0 <= i < j < |ids| ==> rows[ids[i]].createdAt <= rows[ids[j]].createdAt)
  }

  /** The fan-out list: every target once, oldest first. */
  ghost predicate IsFanoutList(s: State, path: string, settings: WebhookPathFilter.Settings, targets: seq<string>) {
    && Enumerates(targets, set id | id in s.rows && IsFanoutTarget(s, path, settings, id))
    && ByCreation(s.rows, targets)
  }

  ghost function NextProxy(s: State, step: Step): State
    requires step.ProxyOAuth?
  {
    var p := Purge(s, step.now, step.order);
    var target := OAuthTarget(p, step.oauthState, step.signed, step.now);
    if target.None? || (step.tooLarge && target.value in p.rows && p.rows[target.value].transport == Tunnel) then p
    else Deliver(p, target.value, step.requestId, step.tooLarge, step.broken, step.now)
  }

  // ---- sockets, timers, alarm ----------------------------------------------------

  ghost function NextMessage(s: State, now: int, socket: nat, message: ClientMessage): State {
    match message
    case Response(id) => s.(requests := Answer(s.requests, id, Answered))
    case Error(id) => s.(requests := Answer(s.requests, id, Errored))
    case Beat => if socket in s.sockets then Extend(s, s.sockets[socket].tag, now) else s
    case Noise => s
  }

  ghost function NextSocketGone(s: State, now: int, socket: nat, stale: bool): State {
    if socket !in s.sockets then s
    else Detach(s.(sockets := s.sockets - {socket}), socket, s.sockets[socket].tag,
                if stale then StaleTunnel else SocketClosed, now)
  }

  ghost function NextAlarm(s: State, now: int, order: seq<string>): State {
    Sync(Schedule(Purge(s.(alarm := None), now, order), now))
  }

  // ---- the step relation ---------------------------------------------------------

  ghost predicate FreshDraw(s: State, draw: Draw) {
    draw.subscriberId !in s.usedIds && draw.forwardToken != ""
  }

  /** The rows the purge inside this step removes. */
  ghost predicate OrderFits(s: State, step: Step) {
    match step
    case Fetch(_, _, _, _, _, _, _, _, _) => Enumerates(step.order, Removed(s, step.now))
    case Register(_, _, _, _, _, _, _, _, _) => Enumerates(step.order, Removed(s, step.now))
    case Deregister(_, id, _) => Enumerates(step.order, Removed(Dropped(s, id), step.now))
    case Heartbeat(_, _, _) => Enumerates(step.order, Removed(s, step.now))
    case Bind(_, _, _, _) => Enumerates(step.order, Removed(s, step.now))
    case GetActive(_, _) => Enumerates(step.order, Removed(s, step.now))
    case Prune(_, _) => Enumerates(step.order, Removed(s, step.now))
    case CountFanout(_, _) => Enumerates(step.order, Removed(s, step.now))
    case FanOut(_, _, _, _, _, _, _, _) => Enumerates(step.order, Removed(s, step.now))
    case ProxyOAuth(_, _, _, _, _, _, _) => Enumerates(step.order, Removed(s, step.now))
    case AlarmFires(_, _) => Enumerates(step.order, Removed(s, step.now))
    case _ => true
  }

  /** What the world guarantees when the handler starts. */
  ghost predicate Enabled(s: State, step: Step) {
    && s.clock <= step.now
    && OrderFits(s, step)
    && match step
       case Fetch(_, routeId, _, _, _, _, draw, socket, _) =>
         routeId == s.name && FreshDraw(s, draw) && socket !in s.sockets && socket !in s.ignored
       case Register(_, routeId, _, _, _, _, _, draw, _) => routeId == s.name && FreshDraw(s, draw)
       case FanOut(now, path, settings, targets, _, _, _, order) =>
         IsFanoutList(Purge(s, now, order), path, settings, targets)
       case Message(_, socket, _) => socket in s.sockets
       case SocketGone(_, socket, _) => socket in s.sockets
       case PeerClosing(_, socket) => socket in s.sockets
       case AutoPong(_, socket) => socket in s.sockets
       case TimerFires(now, promise) => promise in s.requests.timers && s.requests.timers[promise].dueAt <= now
       case AlarmFires(now, _) => s.alarm.Some? && s.alarm.value <= now
       case _ => true
  }

  /** The handler's effect, apart from the clock. */
  ghost function Effect(s: State, step: Step): State {
    match step
    case Fetch(_, _, _, _, _, _, _, _, _) => NextFetch(s, step)
    case Register(_, _, _, _, _, _, _, _, _) => NextRegister(s, step)
    case Heartbeat(now, id, order) => NextHeartbeat(s, now, id, order)
    case Deregister(now, id, order) => NextDeregister(s, now, id, order)
    case Bind(now, id, oauthState, order) => NextBind(s, now, id, oauthState, order)
    case GetActive(now, order) => Flush(Purge(s, now, order))
    case Prune(now, order) => NextPrune(s, now, order)
    case CountFanout(now, order) => Purge(s, now, order)
    case FanOut(now, _, _, targets, requestId, tooLarge, broken, order) =>
      DeliverAll(Purge(s, now, order), targets, requestId, tooLarge, broken, now)
    case ProxyOAuth(_, _, _, _, _, _, _) => NextProxy(s, step)
    case Message(now, socket, message) => NextMessage(s, now, socket, message)
    case SocketGone(now, socket, stale) => NextSocketGone(s, now, socket, stale)
    case PeerClosing(_, socket) =>
      if socket in s.sockets then s.(sockets := s.sockets[socket := s.sockets[socket].(open := false)]) else s
    case AutoPong(now, socket) =>
      if socket in s.sockets then s.(sockets := s.sockets[socket := s.sockets[socket].(lastPing := Some(now))]) else s
    case TimerFires(_, promise) => s.(requests := TimeOut(s.requests, promise))
    case AlarmFires(now, order) => NextAlarm(s, now, order)
    case FlushLog(_) => Flush(s)
    case AddToIndex(_) => s.(indexed := true)
  }

  ghost function Next(s: State, step: Step): State {
    Effect(s, step).(clock := step.now)
  }

  /** A new Durable Object for an allowed route; the index may hold a stale row for it. */
  ghost predicate Initial(s: State) {
    && RouteId.IsAllowedRouteId(s.name)
    && s.routeId.None? && s.rows == map[] && s.bindings == map[] && s.sockets == map[] && s.ignored == {}
    && s.requests == Requests(map[], map[], map[], 0) && s.queued == [] && s.flushed == []
    && s.alarm.None? && s.scheduledAt == 0 && s.clock >= 0 && s.usedIds == {}
  }

  ghost predicate Runs(s: State, steps: seq<Step>)
    decreases |steps|
  {
    steps == [] || (Enabled(s, steps[0]) && Runs(Next(s, steps[0]), steps[1..]))
  }

  ghost function After(s: State, steps: seq<Step>): State
    decreases |steps|
  {
    if steps == [] then s else After(Next(s, steps[0]), steps[1..])
  }
}
