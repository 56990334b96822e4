/** What single steps do to rows and bindings. */
module RouteCarry {
  import opened Wrappers
  import opened RouteState
  import opened RouteSteps
  import opened RouteInvariant
  import opened RoutePrimitives
  import opened RouteKeeps
  import opened RouteDetach

  /** A successful connect: which subscriber this step (re)connects. */
  ghost function Joined(s: State, step: Step): Option<string> {
    match step
    case Fetch(now, routeId, param, _, _, _, draw, _, order) =>
      if BadEnvironmentParam(param) || IsRejected(Welcomed(s, now, routeId, order), TunnelJoin(step)) then None
      else Some(JoinedId(Welcomed(s, now, routeId, order), TunnelJoin(step), draw))
    case Register(now, routeId, _, _, _, _, _, draw, order) =>
      if IsRejected(Welcomed(s, now, routeId, order), PublicJoin(step)) then None
      else Some(JoinedId(Welcomed(s, now, routeId, order), PublicJoin(step), draw))
    case _ => None
  }

  ghost predicate IsJoin(step: Step) { step.Fetch? || step.Register? }

  /** Steps that purge first and then at most renew leases. */
  ghost predicate PurgesOnly(step: Step) {
    || step.Heartbeat? || step.GetActive? || step.Prune? || step.CountFanout? || step.FanOut? || step.ProxyOAuth?
    || step.AlarmFires?
  }

  /** Steps that do not purge and at most renew leases. */
  ghost predicate LeavesRows(step: Step) {
    step.Message? || step.PeerClosing? || step.AutoPong? || step.TimerFires? || step.FlushLog? || step.AddToIndex?
  }

  /** A row's identity and credentials: everything but its lease. */
  ghost predicate SameIdentity(a: Row, b: Row) {
    b == a.(lastHeartbeatAt := b.lastHeartbeatAt, expiresAt := b.expiresAt)
  }

  /** The same rows, with leases possibly renewed. */
  ghost predicate Leased(rows: map<string, Row>, updated: map<string, Row>) {
    && rows.Keys == updated.Keys
    && forall id :: id in rows ==> SameIdentity(rows[id], updated[id]) && rows[id].expiresAt <= updated[id].expiresAt
  }

  lemma LeasedTwice(a: map<string, Row>, b: map<string, Row>, c: map<string, Row>)
    requires Leased(a, b) && Leased(b, c)
    ensures Leased(a, c)
  {
  }

  /** No lease reaches further than a full lifetime from now. */
  ghost predicate ShortLeases(rows: map<string, Row>, now: int) {
    forall id :: id in rows ==> rows[id].expiresAt <= now + SUBSCRIBER_TTL_MS
  }

  lemma RenewLeases(rows: map<string, Row>, id: string, now: int)
    requires ShortLeases(rows, now) && id in rows
    ensures Leased(rows, rows[id := Renewed(rows[id], now)]) && ShortLeases(rows[id := Renewed(rows[id], now)], now)
  {
  }

  lemma ExtendLeases(s: State, id: string, now: int)
    requires ShortLeases(s.rows, now)
    ensures var e := Extend(s, id, now);
      Leased(s.rows, e.rows) && ShortLeases(e.rows, now) && e.bindings == s.bindings && e.usedIds == s.usedIds
  {
    if id in s.rows {
      RenewLeases(s.rows, id, now);
    }
  }

  lemma DeliverTables(s: State, id: string, requestId: string, tooLarge: bool, broken: set<string>, now: int)
    ensures var d := Deliver(s, id, requestId, tooLarge, broken, now);
      d.rows == Extend(s, id, now).rows && d.bindings == s.bindings && d.usedIds == s.usedIds
  {
  }

  lemma {:induction false} DeliverAllLeases(s: State, ids: seq<string>, requestId: string, tooLarge: bool,
                                            broken: set<string>, now: int)
    requires ShortLeases(s.rows, now)
    ensures var d := DeliverAll(s, ids, requestId, tooLarge, broken, now);
      Leased(s.rows, d.rows) && ShortLeases(d.rows, now) && d.bindings == s.bindings && d.usedIds == s.usedIds
    decreases |ids|
  {
    if ids != [] {
      var front, last := ids[..|ids| - 1], ids[|ids| - 1];
      DeliverAllLeases(s, front, requestId, tooLarge, broken, now);
      var d := DeliverAll(s, front, requestId, tooLarge, broken, now);
      DeliverTables(d, last, requestId, tooLarge, broken, now);
      ExtendLeases(d, last, now);
      LeasedTwice(s.rows, d.rows, DeliverAll(s, ids, requestId, tooLarge, broken, now).rows);
    }
  }

  lemma LeasesAreShort(s: State, now: int)
    requires Inv(s) && s.clock <= now
    ensures ShortLeases(s.rows, now) && ShortLeases(KeptRows(s, now), now)
  {
  }

  // ---- a step's effect on rows and bindings, in summary ------------------------------

  ghost predicate Refused(step: Step) {
    step.Fetch? && BadEnvironmentParam(step.environmentParam)
  }

  ghost function JoinOf(step: Step): Join
    requires IsJoin(step)
  {
    if step.Fetch? then TunnelJoin(step) else PublicJoin(step)
  }

  ghost function WelcomedBy(s: State, step: Step): State
    requires IsJoin(step)
  {
    Welcomed(s, step.now, step.routeId, step.order)
  }

  /** The purged tables, and the joined row if the join was accepted. */
  ghost predicate JoinSummary(s: State, step: Step, t: State)
    requires IsJoin(step)
  {
    if Refused(step) then t.rows == s.rows && t.bindings == s.bindings && Joined(s, step).None?
    else
      && t.bindings == KeptBindings(s, step.now)
      && (Joined(s, step).None? ==> t.rows == KeptRows(s, step.now))
      && (Joined(s, step).Some? ==>
            var w := WelcomedBy(s, step);
            && Joined(s, step).value == JoinedId(w, JoinOf(step), step.draw)
            && t.rows
                 == KeptRows(s, step.now)[Joined(s, step).value := JoinedRow(w, JoinOf(step), step.draw, step.now)])
  }

  ghost predicate DepartureSummary(s: State, step: Step, t: State) {
    && (step.Deregister? ==>
          && t.rows == KeptRows(Dropped(s, step.subscriberId), step.now)
          && t.bindings == KeptBindings(Dropped(s, step.subscriberId), step.now))
    && (step.SocketGone? && step.socket in s.sockets ==>
          var id := s.sockets[step.socket].tag;
          if step.socket in s.ignored then t.rows == s.rows && t.bindings == s.bindings
          else if id in s.rows && s.rows[id].environmentId.Some? then
            t.rows == s.rows[id := Renewed(s.rows[id], step.now)] && t.bindings == s.bindings
          else t.rows == s.rows - {id} && t.bindings == BindingsWithout(s.bindings, {id}))
  }

  ghost predicate BindSummary(s: State, step: Step, t: State)
    requires step.Bind?
  {
    && t.rows == KeptRows(s, step.now)
    && (forall st :: st != step.boundState && st in t.bindings ==> st in s.bindings && t.bindings[st] == s.bindings[st])
    && (forall st :: st != step.boundState && st in KeptBindings(s, step.now) ==> st in t.bindings)
  }

  ghost predicate PurgeSummary(s: State, now: int, t: State) {
    Leased(KeptRows(s, now), t.rows) && t.bindings == KeptBindings(s, now)
  }

  ghost predicate LeaseSummary(s: State, t: State) {
    Leased(s.rows, t.rows) && t.bindings == s.bindings
  }

  ghost predicate Summary(s: State, step: Step, t: State) {
    && s.usedIds <= t.usedIds
    && if IsJoin(step) then JoinSummary(s, step, t)
       else if step.Bind? then BindSummary(s, step, t)
       else if PurgesOnly(step) then PurgeSummary(s, step.now, t)
       else if LeavesRows(step) then LeaseSummary(s, t)
       else DepartureSummary(s, step, t)
  }

  lemma WelcomedTables(s: State, now: int, routeId: string, order: seq<string>)
    ensures var w := Welcomed(s, now, routeId, order);
      w.rows == KeptRows(s, now) && w.bindings == KeptBindings(s, now) && w.usedIds == s.usedIds
  {
  }

  lemma AttachTables(w: State, j: Join, draw: Draw, now: int)
    ensures var a := Attach(w, j, draw, now);
      && a.rows == w.rows[JoinedId(w, j, draw) := JoinedRow(w, j, draw, now)]
      && a.bindings == w.bindings && w.usedIds <= a.usedIds
  {
    hide Failed, ClosedFor, TagSet;
  }

  lemma FetchSummary(s: State, step: Step)
    requires step.Fetch?
    ensures JoinSummary(s, step, NextFetch(s, step)) && s.usedIds <= NextFetch(s, step).usedIds
  {
    hide KeptRows, KeptBindings, Welcomed, Attach, IsRejected, JoinedId, JoinedRow;
    if !Refused(step) {
      WelcomedTables(s, step.now, step.routeId, step.order);
      AttachTables(WelcomedBy(s, step), TunnelJoin(step), step.draw, step.now);
    }
  }

  lemma RegisterSummary(s: State, step: Step)
    requires step.Register?
    ensures JoinSummary(s, step, NextRegister(s, step)) && s.usedIds <= NextRegister(s, step).usedIds
  {
    hide KeptRows, KeptBindings, Welcomed, Attach, IsRejected, JoinedId, JoinedRow, CleanupAt;
    WelcomedTables(s, step.now, step.routeId, step.order);
    AttachTables(WelcomedBy(s, step), PublicJoin(step), step.draw, step.now);
  }

  lemma HeartbeatSummary(s: State, now: int, id: string, order: seq<string>)
    requires ShortLeases(KeptRows(s, now), now)
    ensures var n := NextHeartbeat(s, now, id, order);
      PurgeSummary(s, now, n) && n.usedIds == s.usedIds
  {
    hide Purge, KeptRows, KeptBindings, Leased, ShortLeases, CleanupAt;
    PurgedSummary(s, now, order);
    PurgeTables(s, now, order);
    ExtendLeases(Purge(s, now, order), id, now);
  }

  lemma BoundSummary(s: State, step: Step)
    requires step.Bind? && BindableState(step.boundState)
    ensures var n := NextBind(s, step.now, step.subscriberId, step.boundState, step.order);
      BindSummary(s, step, n) && n.usedIds == s.usedIds
  {
  }

  lemma FanOutSummary(s: State, now: int, order: seq<string>, targets: seq<string>, requestId: string, tooLarge: bool,
                      broken: set<string>)
    requires ShortLeases(KeptRows(s, now), now)
    ensures var n := DeliverAll(Purge(s, now, order), targets, requestId, tooLarge, broken, now);
      PurgeSummary(s, now, n) && n.usedIds == s.usedIds
  {
    DeliverAllLeases(Purge(s, now, order), targets, requestId, tooLarge, broken, now);
  }

  lemma ProxySummary(s: State, step: Step)
    requires step.ProxyOAuth? && ShortLeases(KeptRows(s, step.now), step.now)
    ensures var n := NextProxy(s, step);
      PurgeSummary(s, step.now, n) && n.usedIds == s.usedIds
  {
    var p := Purge(s, step.now, step.order);
    var target := OAuthTarget(p, step.oauthState, step.signed, step.now);
    if target.Some? {
      DeliverTables(p, target.value, step.requestId, step.tooLarge, step.broken, step.now);
      ExtendLeases(p, target.value, step.now);
    }
  }

  lemma AlarmSummary(s: State, now: int, order: seq<string>)
    ensures var n := NextAlarm(s, now, order);
      PurgeSummary(s, now, n) && n.usedIds == s.usedIds
  {
    hide Failed, PromisesOf, PendingWithout, Settled, StaleClosed, RemovalEvents;
    assert KeptRows(s.(alarm := None), now) == KeptRows(s, now);
    assert KeptBindings(s.(alarm := None), now) == KeptBindings(s, now);
  }

  lemma DeregisterSummary(s: State, step: Step)
    requires step.Deregister?
    ensures var n := NextDeregister(s, step.now, step.subscriberId, step.order);
      DepartureSummary(s, step, n) && n.usedIds == s.usedIds
  {
    hide KeptRows, KeptBindings, CleanupAt, Dropped, Failed, Removed, RemovalEvents, StaleClosed;
    DroppedTables(s, step.subscriberId);
  }

  lemma SocketGoneSummary(s: State, step: Step)
    requires step.SocketGone? && step.socket in s.sockets
    requires step.socket !in s.ignored ==> s.sockets[step.socket].tag in s.rows
    ensures var n := NextSocketGone(s, step.now, step.socket, step.stale);
      DepartureSummary(s, step, n) && n.usedIds == s.usedIds
  {
    hide CleanupAt, Failed, BindingsWithout;
    DetachCases(s, step.now, step.socket, step.stale);
  }

  lemma MessageSummary(s: State, now: int, socket: nat, message: ClientMessage)
    requires ShortLeases(s.rows, now)
    ensures var n := NextMessage(s, now, socket, message);
      LeaseSummary(s, n) && n.usedIds == s.usedIds
  {
    if message.Beat? && socket in s.sockets {
      ExtendLeases(s, s.sockets[socket].tag, now);
    }
  }

  lemma SummaryIgnoresClock(s: State, step: Step, t: State, now: int)
    requires Summary(s, step, t)
    ensures Summary(s, step, t.(clock := now))
  {
  }

  /** A bind that is refused before it touches anything. */
  ghost predicate RefusedBind(step: Step) {
    step.Bind? && !BindableState(step.boundState)
  }

  ghost predicate IsCall(step: Step) {
    step.Fetch? || step.Register? || step.Heartbeat? || step.Deregister? || step.Bind?
  }

  ghost predicate IsQuery(step: Step) {
    step.GetActive? || step.Prune? || step.CountFanout? || step.FanOut? || step.ProxyOAuth?
  }

  lemma CallSummary(s: State, step: Step)
    requires ShortLeases(KeptRows(s, step.now), step.now) && IsCall(step) && !RefusedBind(step)
    ensures Summary(s, step, Effect(s, step))
  {
    hide NextFetch, NextRegister, NextHeartbeat, NextDeregister, NextBind, KeptRows, HasEnvironment, IsLive,
         IsRejected, Extend, Renewed, HasCurrent, HasOpen, Listed, NextProxy, NextMessage, NextSocketGone, NextAlarm,
         Flush, Sync, JoinSummary, DepartureSummary, BindSummary, PurgeSummary, LeaseSummary, Survives, Kept;
    match step
    case Fetch(_, _, _, _, _, _, _, _, _) => FetchSummary(s, step);
    case Register(_, _, _, _, _, _, _, _, _) => RegisterSummary(s, step);
    case Heartbeat(now, id, order) => HeartbeatSummary(s, now, id, order);
    case Deregister(_, _, _) => DeregisterSummary(s, step);
    case Bind(_, _, _, _) => BoundSummary(s, step);
    case _ =>
  }

  lemma PurgedSummary(s: State, now: int, order: seq<string>)
    ensures var p := Purge(s, now, order);
      PurgeSummary(s, now, p) && p.usedIds == s.usedIds
  {
  }

  lemma QuerySummary(s: State, step: Step)
    requires ShortLeases(KeptRows(s, step.now), step.now) && IsQuery(step)
    ensures Summary(s, step, Effect(s, step))
  {
    hide KeptRows, KeptBindings, Purge, DeliverAll, NextProxy, Leased, Active, ShortLeases;
    match step
    case FanOut(now, _, _, targets, requestId, tooLarge, broken, order) =>
      FanOutSummary(s, now, order, targets, requestId, tooLarge, broken);
    case ProxyOAuth(_, _, _, _, _, _, _) => ProxySummary(s, step);
    case GetActive(now, order) => PurgedSummary(s, now, order);
    case Prune(now, order) => PurgedSummary(s, now, order);
    case CountFanout(now, order) => PurgedSummary(s, now, order);
    case _ =>
  }

  lemma EventSummary(s: State, step: Step)
    requires ShortLeases(s.rows, step.now) && !IsCall(step) && !IsQuery(step)
    requires step.SocketGone? ==>
      step.socket in s.sockets && (step.socket !in s.ignored ==> s.sockets[step.socket].tag in s.rows)
    ensures Summary(s, step, Effect(s, step))
  {
    hide NextProxy, NextMessage, NextSocketGone, NextAlarm, Failed, PromisesOf, PendingWithout, Settled;
    match step
    case Message(now, socket, message) => MessageSummary(s, now, socket, message);
    case SocketGone(_, _, _) => SocketGoneSummary(s, step);
    case AlarmFires(now, order) => AlarmSummary(s, now, order);
    case _ =>
  }

  /** Every step but a refused bind, which only moves the clock, has its summary. */
  lemma StepSummary(s: State, step: Step)
    requires Inv(s) && Enabled(s, step)
    ensures !RefusedBind(step) ==> Summary(s, step, Next(s, step))
    ensures RefusedBind(step) ==> Next(s, step) == s.(clock := step.now)
  {
    hide Purge, Attach;
    LeasesAreShort(s, step.now);
    if !RefusedBind(step) {
      if IsCall(step) {
        CallSummary(s, step);
      } else if IsQuery(step) {
        QuerySummary(s, step);
      } else {
        EventSummary(s, step);
      }
      SummaryIgnoresClock(s, step, Effect(s, step), step.now);
    }
  }

  // ---- consequences of a summary -----------------------------------------------------

  /** Rows may go or be renewed; only the joined one may appear or change. */
  ghost predicate Carried(rows: map<string, Row>, updated: map<string, Row>, joined: Option<string>) {
    forall id :: id in updated && joined != Some(id) ==> id in rows && SameIdentity(rows[id], updated[id])
  }

  /** A reclaimed row keeps its birth, its hop credential and its environment. */
  ghost predicate Reclaims(before: Row, after: Row) {
    && after.createdAt == before.createdAt
    && after.forwardToken == before.forwardToken
    && after.environmentId == before.environmentId
  }

  /** The row says how its subscriber connected: where deliveries go, and by whose name, flag and token. */
  ghost predicate ConnectedBy(row: Row, step: Step)
    requires IsJoin(step)
  {
    && row.transport == (if step.Fetch? then Tunnel else Public)
    && row.targetBaseUrl == (if step.Fetch? then "" else step.targetBaseUrl)
    && row.environmentId == (if EnvironmentGiven(step) == "" then None else Some(EnvironmentGiven(step)))
    && row.acceptWebhooks == step.acceptWebhooks
    && row.tokenHash == Sha256(step.draw.connectionToken)
  }

  /** The environment that a join names, "" when it names none. */
  function EnvironmentGiven(step: Step): string
    requires IsJoin(step)
  {
    var given := if step.Fetch? then step.environmentParam else step.environmentId;
    if given.None? then "" else given.value
  }

  /** What a successful connect stores: all it was given, and the identity it reclaims or draws. */
  ghost predicate Stores(s: State, step: Step, id: string, row: Row)
    requires IsJoin(step)
  {
    && ConnectedBy(row, step)
    && row.lastHeartbeatAt == step.now
    && row.expiresAt == step.now + SUBSCRIBER_TTL_MS
    && (id in s.usedIds ==> id in s.rows && id in KeptRows(s, step.now) && Reclaims(s.rows[id], row))
    && (id !in s.usedIds ==>
          id == step.draw.subscriberId && row.createdAt == step.now && row.forwardToken == step.draw.forwardToken)
  }

  lemma JoinStores(s: State, step: Step, t: State)
    requires RowsOk(s.rows, s.usedIds, s.clock) && IsJoin(step) && FreshDraw(s, step.draw)
    requires JoinSummary(s, step, t) && Joined(s, step).Some?
    ensures var id := Joined(s, step).value;
      && id in t.rows && Stores(s, step, id, t.rows[id])
      && t.rows == KeptRows(s, step.now)[id := t.rows[id]]
  {
    hide KeptBindings, IsRejected, StaleClosed, RemovalEvents, HasCurrent, HasOpen, Listed, HasEnvironment, IsLive,
         Failed, PromisesOf, PendingWithout, Settled;
    var w := WelcomedBy(s, step);
    assert w.rows == KeptRows(s, step.now);
    assert forall id :: id in w.rows ==>
      id in s.rows && id in s.usedIds && Reclaims(s.rows[id], w.rows[id]) && w.rows[id].forwardToken != "";
  }

  lemma SummaryOfJoin(s: State, step: Step, t: State)
    requires IsJoin(step) && Summary(s, step, t)
    ensures JoinSummary(s, step, t)
  {
    hide JoinSummary;
  }

  lemma NotJoined(s: State, step: Step)
    ensures !IsJoin(step) || Refused(step) ==> Joined(s, step).None?
  {
  }

  lemma DroppedTables(s: State, id: string)
    ensures Dropped(s, id).rows == s.rows - {id} && Dropped(s, id).usedIds == s.usedIds
    ensures forall other :: other != id ==> (Listed(Dropped(s, id).sockets, other) <==> Listed(s.sockets, other))
    ensures forall st :: st in Dropped(s, id).bindings ==>
      st in s.bindings && s.bindings[st] == Dropped(s, id).bindings[st]
    ensures forall st :: st in s.bindings && s.bindings[st].subscriberId != id ==> st in Dropped(s, id).bindings
  {
    var d := Dropped(s, id);
    forall other | other != id ensures Listed(d.sockets, other) <==> Listed(s.sockets, other) {
      if w :| w in s.sockets && s.sockets[w].tag == other {
        assert d.sockets[w].tag == other;
      }
    }
  }

  lemma KeptCarries(s: State, now: int)
    ensures Carried(s.rows, KeptRows(s, now), None)
  {
  }

  lemma DepartureCarries(s: State, step: Step, t: State)
    requires DepartureSummary(s, step, t) && (step.Deregister? || (step.SocketGone? && step.socket in s.sockets))
    ensures Carried(s.rows, t.rows, None)
  {
    if step.Deregister? {
      DroppedTables(s, step.subscriberId);
      KeptCarries(Dropped(s, step.subscriberId), step.now);
    }
  }

  lemma JoinCarries(s: State, step: Step, t: State)
    requires RowsOk(s.rows, s.usedIds, s.clock) && IsJoin(step) && FreshDraw(s, step.draw) && JoinSummary(s, step, t)
    ensures Carried(s.rows, t.rows, Joined(s, step))
  {
    KeptCarries(s, step.now);
    if Joined(s, step).Some? {
      JoinStores(s, step, t);
    }
  }

  lemma LeasedCarries(rows: map<string, Row>, kept: map<string, Row>, updated: map<string, Row>)
    requires Carried(rows, kept, None) && Leased(kept, updated)
    ensures Carried(rows, updated, None)
  {
  }

  /** All other steps renew leases, after a purge or without one. */
  lemma RestLeases(s: State, step: Step, t: State)
    requires Summary(s, step, t) && !IsJoin(step) && !step.Deregister? && !step.SocketGone?
    ensures Leased(s.rows, t.rows) || Leased(KeptRows(s, step.now), t.rows)
  {
    hide KeptRows, KeptBindings;
    if step.Bind? {
      LeasedByItself(t.rows);
    }
    hide Leased;
  }

  lemma LeasedByItself(rows: map<string, Row>)
    ensures Leased(rows, rows)
  {
  }

  lemma RestCarries(s: State, step: Step, t: State)
    requires Summary(s, step, t) && !IsJoin(step) && !step.Deregister? && !step.SocketGone?
    ensures Carried(s.rows, t.rows, None)
  {
    hide KeptRows, Summary, Leased, Carried;
    RestLeases(s, step, t);
    KeptCarries(s, step.now);
    if Leased(s.rows, t.rows) {
      CarriedByItself(s.rows);
      LeasedCarries(s.rows, s.rows, t.rows);
    } else {
      LeasedCarries(s.rows, KeptRows(s, step.now), t.rows);
    }
  }

  lemma CarriedByItself(rows: map<string, Row>)
    ensures Carried(rows, rows, None)
  {
  }

  /** What an enabled step brings along. */
  lemma EnabledFacts(s: State, step: Step)
    requires Enabled(s, step)
    ensures s.clock <= step.now
    ensures IsJoin(step) ==> FreshDraw(s, step.draw)
    ensures step.SocketGone? ==> step.socket in s.sockets
  {
    hide OrderFits, FreshDraw, IsFanoutList, Purge;
  }

  lemma SummaryCarries(s: State, step: Step, t: State)
    requires RowsOk(s.rows, s.usedIds, s.clock) && Summary(s, step, t)
    requires IsJoin(step) ==> FreshDraw(s, step.draw)
    requires step.SocketGone? ==> step.socket in s.sockets
    ensures Carried(s.rows, t.rows, Joined(s, step))
  {
    hide Joined, JoinSummary, DepartureSummary, KeptRows, RowsOk, FreshDraw;
    NotJoined(s, step);
    if IsJoin(step) {
      JoinCarries(s, step, t);
    } else if step.Deregister? || step.SocketGone? {
      DepartureCarries(s, step, t);
    } else {
      RestCarries(s, step, t);
    }
  }

  /** An id that has been used and has no row never has one again. */
  lemma NeverRevives(s: State, step: Step, t: State, id: string)
    requires RowsOk(s.rows, s.usedIds, s.clock) && Summary(s, step, t)
    requires IsJoin(step) ==> FreshDraw(s, step.draw)
    requires step.SocketGone? ==> step.socket in s.sockets
    requires id in s.usedIds && id !in s.rows
    ensures id !in t.rows && id in t.usedIds
  {
    SummaryCarries(s, step, t);
    NotJoined(s, step);
    if Joined(s, step) == Some(id) {
      JoinStores(s, step, t);
    }
  }

  ghost predicate Retains(rows: map<string, Row>, updated: map<string, Row>, id: string)
    requires id in rows
  {
    id in updated && Reclaims(rows[id], updated[id]) && updated[id].expiresAt >= rows[id].expiresAt
  }

  lemma JoinRetains(s: State, step: Step, t: State, id: string)
    requires RowsOk(s.rows, s.usedIds, s.clock) && IsJoin(step) && FreshDraw(s, step.draw) && JoinSummary(s, step, t)
    requires id in KeptRows(s, step.now) && KeptRows(s, step.now)[id] == s.rows[id] && s.clock <= step.now
    ensures Retains(s.rows, t.rows, id)
  {
    if Joined(s, step).Some? {
      JoinStores(s, step, t);
    }
  }

  lemma DepartureRetains(s: State, step: Step, t: State, id: string)
    requires RowsOk(s.rows, s.usedIds, s.clock) && DepartureSummary(s, step, t) && id in s.rows && s.clock <= step.now
    requires s.rows[id].environmentId.Some? && step.now < s.rows[id].expiresAt
    requires (step.Deregister? && step.subscriberId != id) || (step.SocketGone? && step.socket in s.sockets)
    ensures Retains(s.rows, t.rows, id)
  {
    if step.Deregister? {
      DroppedTables(s, step.subscriberId);
    }
  }

  lemma LeasedRetains(rows: map<string, Row>, kept: map<string, Row>, updated: map<string, Row>, id: string)
    requires id in rows && id in kept && kept[id] == rows[id]
    ensures Leased(kept, updated) ==> Retains(rows, updated, id)
  {
  }

  lemma SummaryOfDeparture(s: State, step: Step, t: State)
    requires (step.Deregister? || step.SocketGone?) && Summary(s, step, t)
    ensures DepartureSummary(s, step, t)
  {
    hide DepartureSummary;
  }

  /** An unexpired environment row survives any step but its own deregistration, with no shorter lease. */
  lemma SummaryRetains(s: State, step: Step, t: State, id: string)
    requires RowsOk(s.rows, s.usedIds, s.clock) && Summary(s, step, t) && id in s.rows && s.clock <= step.now
    requires IsJoin(step) ==> FreshDraw(s, step.draw)
    requires s.rows[id].environmentId.Some? && step.now < s.rows[id].expiresAt
    requires !(step.Deregister? && step.subscriberId == id)
    requires step.SocketGone? ==> step.socket in s.sockets
    ensures Retains(s.rows, t.rows, id)
  {
    hide Summary, Leased, JoinSummary, DepartureSummary;
    assert id in KeptRows(s, step.now) && KeptRows(s, step.now)[id] == s.rows[id];
    hide KeptRows, RowsOk, Retains;
    if IsJoin(step) {
      SummaryOfJoin(s, step, t);
      JoinRetains(s, step, t, id);
    } else if step.Deregister? || step.SocketGone? {
      SummaryOfDeparture(s, step, t);
      DepartureRetains(s, step, t, id);
    } else {
      RestLeases(s, step, t);
      LeasedRetains(s.rows, s.rows, t.rows, id);
      LeasedRetains(s.rows, KeptRows(s, step.now), t.rows, id);
    }
  }

  ghost predicate KeepsBinding(s: State, now: int, t: State, st: string) {
    && (st in t.bindings ==> st in s.bindings && s.bindings[st] == t.bindings[st])
    && (st in s.bindings && s.bindings[st].expiresAt > now && s.bindings[st].subscriberId in t.rows ==>
          st in t.bindings)
  }

  lemma DeregisterKeepsBinding(s: State, step: Step, t: State, st: string)
    requires Summary(s, step, t) && step.Deregister?
    ensures KeepsBinding(s, step.now, t, st)
  {
    DroppedTables(s, step.subscriberId);
  }

  lemma RestKeepsBinding(s: State, step: Step, t: State, st: string)
    requires Summary(s, step, t) && !IsJoin(step) && !step.Deregister? && !step.SocketGone?
    requires !(step.Bind? && step.boundState == st)
    ensures KeepsBinding(s, step.now, t, st)
  {
    hide Leased, Listed;
    LeasedKeys(KeptRows(s, step.now), t.rows);
  }

  lemma LeasedKeys(rows: map<string, Row>, updated: map<string, Row>)
    ensures Leased(rows, updated) ==> rows.Keys == updated.Keys
  {
  }

  lemma SocketGoneKeepsBinding(s: State, step: Step, t: State, st: string)
    requires BindingsOk(s.bindings, s.rows) && step.SocketGone? && step.socket in s.sockets && Summary(s, step, t)
    ensures KeepsBinding(s, step.now, t, st)
  {
  }

  lemma JoinKeepsBinding(s: State, step: Step, t: State, st: string)
    requires RowsOk(s.rows, s.usedIds, s.clock) && BindingsOk(s.bindings, s.rows) && IsJoin(step)
    requires JoinSummary(s, step, t) && FreshDraw(s, step.draw)
    ensures KeepsBinding(s, step.now, t, st)
  {
    hide JoinedId, JoinedRow, ReclaimedRow, CreatedRow;
    if Joined(s, step).Some? {
      JoinStores(s, step, t);
      hide Joined, JoinSummary, Stores, RowOk;
    } else {
      hide Joined;
    }
  }

  /** A step that does not rebind a state keeps its binding while it is unexpired and its row exists. */
  lemma SummaryKeepsBinding(s: State, step: Step, t: State, st: string)
    requires RowsOk(s.rows, s.usedIds, s.clock) && BindingsOk(s.bindings, s.rows) && Summary(s, step, t)
    requires IsJoin(step) ==> FreshDraw(s, step.draw)
    requires !(step.Bind? && step.boundState == st)
    requires step.SocketGone? ==> step.socket in s.sockets
    ensures KeepsBinding(s, step.now, t, st)
  {
    hide Joined, JoinSummary, FreshDraw, RowsOk, Listed, Summary;
    if IsJoin(step) {
      SummaryOfJoin(s, step, t);
      JoinKeepsBinding(s, step, t, st);
    } else if step.Deregister? {
      DeregisterKeepsBinding(s, step, t, st);
    } else if step.SocketGone? {
      SocketGoneKeepsBinding(s, step, t, st);
    } else {
      RestKeepsBinding(s, step, t, st);
    }
  }
}
