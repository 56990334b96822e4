/**
 What a step tells the rest of the router, told on the tables alone: the audit events it logs, the index
 entry it leaves, and the alarm it sets.
 */
module RouteLogLaws {
  import opened Wrappers
  import opened RouteState
  import opened RouteSteps
  import opened RouteInvariant
  import opened RouteDetach
  import opened RouteCarry
  import opened RouteReachable
  import opened RouteRowLaws
  import opened RouteSocketLaws

  // ---- events ------------------------------------------------------------------------

  /** What an event shows of where a row's deliveries go. */
  function Shown(transport: Transport, targetBaseUrl: string): Option<string> {
    match transport
    case Tunnel => Some("reverse-tunnel")
    case Public => if targetBaseUrl == "" then None else Some(targetBaseUrl)
  }

  /** The event says of the subscriber what its row does. */
  predicate Describes(e: Event, id: string, row: Row) {
    && e.subscriberId == id && e.environmentId == row.environmentId && e.transport == row.transport
    && e.target == Shown(row.transport, row.targetBaseUrl)
  }

  predicate IsFarewell(e: Event, id: string, row: Row, reason: Reason) {
    e.action == Disconnected && e.reason == reason && e.clientIp.None? && Describes(e, id, row)
  }

  /** One farewell for every row that the purge finds lapsed, in the order in which they go. */
  ghost predicate LogsLapses(rows: map<string, Row>, order: seq<string>, now: int, log: seq<Event>) {
    && |log| == |order|
    && forall i :: 0 <= i < |order| ==>
         order[i] in rows &&
         IsFarewell(log[i], order[i], rows[order[i]],
                    if rows[order[i]].expiresAt <= now then Expired else SocketClosed)
  }

  /** The log of a join after its purge: welcomed, after a farewell if it replaces a live subscriber, or rejected. */
  ghost predicate LogsJoin(s: State, step: Step, t: State, log: seq<Event>)
    requires IsJoin(step)
  {
    if Joined(s, step).None? then
      && |log| == 1 && log[0].action == Rejected && log[0].reason == EnvironmentInUse
      && log[0].clientIp == step.clientIp
      && exists id :: Holds(s, step, id) && Describes(log[0], id, s.rows[id])
    else
      var id := Joined(s, step).value;
      var wasLive := id in s.rows && (s.rows[id].transport == Public || !Socketless(s, id));
      && id in t.rows
      && |log| == (if wasLive then 2 else 1)
      && (wasLive ==> IsFarewell(log[0], id, s.rows[id], Replaced))
      && var e := log[|log| - 1];
         && e.action == Connected && e.clientIp == step.clientIp && Describes(e, id, t.rows[id])
         && e.reason == if id in s.rows then Reclaimed else Registered
  }

  /** The last part of a step's log, after what its purge logs. */
  ghost predicate LogsRest(s: State, step: Step, t: State, log: seq<Event>) {
    if IsJoin(step) && Purges(step) then LogsJoin(s, step, t, log)
    else if step.SocketGone? && step.socket in s.sockets && step.socket !in s.ignored then
      var id := s.sockets[step.socket].tag;
      && id in s.rows && |log| == 1
      && IsFarewell(log[0], id, s.rows[id], if step.stale then StaleTunnel else SocketClosed)
    else log == []
  }

  /** The first part: a deregistered subscriber's farewell, before the purge. */
  ghost predicate LogsFirst(s: State, step: Step, log: seq<Event>) {
    if step.Deregister? && step.subscriberId in s.rows then
      |log| == 1 && IsFarewell(log[0], step.subscriberId, s.rows[step.subscriberId], Deregistered)
    else log == []
  }

  /** Everything that a step logs. */
  ghost predicate LogLaw(s: State, step: Step, t: State, first: seq<Event>, lapses: seq<Event>, rest: seq<Event>) {
    && History(t) == History(s) + first + lapses + rest
    && LogsFirst(s, step, first)
    && (if Purges(step) then LogsLapses(s.rows, step.order, step.now, lapses) else lapses == [])
    && LogsRest(s, step, t, rest)
  }

  lemma PurgeLogs(s: State, now: int, order: seq<string>)
    requires Enumerates(order, Removed(s, now))
    ensures History(Purge(s, now, order)) == History(s) + RemovalEvents(s.rows, order, now)
    ensures LogsLapses(s.rows, order, now, RemovalEvents(s.rows, order, now))
  {
    forall i | 0 <= i < |order| ensures order[i] in s.rows {
      assert order[i] in order;
    }
  }

  /** How a join finds the subscriber after its purge. */
  lemma PurgedOwner(s: State, step: Step, id: string)
    requires Inv(s) && Enabled(s, step) && IsJoin(step) && Purges(step)
    requires HasEnvironment(WelcomedBy(s, step).rows, JoinOf(step).environmentId)
    requires id == EnvironmentOwner(WelcomedBy(s, step).rows, JoinOf(step).environmentId)
    ensures Holds(s, step, id) && SameIdentity(s.rows[id], WelcomedBy(s, step).rows[id])
    ensures IsLive(WelcomedBy(s, step), id) <==> s.rows[id].transport == Public || !Socketless(s, id)
  {
    hide Inv, Enabled, Purge, KeptRows, Lapses;
    WelcomedTables(s, step.now, step.routeId, step.order);
    PurgedRow(s, step.now, id);
    WelcomedSockets(s, step.now, step.routeId, step.order, id);
  }

  /** What an accepted or rejected join logs. */
  ghost function JoinLog(w: State, j: Join, draw: Draw): seq<Event>
  {
    if IsRejected(w, j) then
      var id := EnvironmentOwner(w.rows, j.environmentId);
      [Event(Rejected, EnvironmentInUse, id, w.rows[id].environmentId, w.rows[id].transport,
             TargetFor(w.rows[id].transport, w.rows[id].targetBaseUrl), j.clientIp)]
    else if HasEnvironment(w.rows, j.environmentId) then
      var id := EnvironmentOwner(w.rows, j.environmentId);
      (if IsLive(w, id) then [Gone(w.rows[id], id, Replaced)] else []) + [ConnectedEvent(id, j, Reclaimed)]
    else [ConnectedEvent(draw.subscriberId, j, Registered)]
  }

  lemma AttachLogs(w: State, j: Join, draw: Draw, now: int)
    ensures IsRejected(w, j) ==> History(RejectJoin(w, j)) == History(w) + JoinLog(w, j, draw)
    ensures !IsRejected(w, j) ==> History(Attach(w, j, draw, now)) == History(w) + JoinLog(w, j, draw)
  {
    hide Failed, TagSet, ClosedFor;
  }

  lemma JoinHistory(s: State, step: Step)
    requires IsJoin(step) && Purges(step)
    ensures var w := WelcomedBy(s, step);
      && History(Next(s, step)) == History(w) + JoinLog(w, JoinOf(step), step.draw)
      && History(w) == History(Purge(s, step.now, step.order))
      && Joined(s, step) == if IsRejected(w, JoinOf(step)) then None else Some(JoinedId(w, JoinOf(step), step.draw))
  {
    hide Purge, IsRejected, JoinedId, Attach, RejectJoin, JoinLog, History, Next, CleanupAt;
    AttachLogs(WelcomedBy(s, step), JoinOf(step), step.draw, step.now);
    WelcomeLogsNothing(s, step);
    AfterJoin(s, step);
  }

  lemma WelcomeLogsNothing(s: State, step: Step)
    requires IsJoin(step)
    ensures History(WelcomedBy(s, step)) == History(Purge(s, step.now, step.order))
  {
    hide Purge;
  }

  lemma AfterJoin(s: State, step: Step)
    requires IsJoin(step) && Purges(step)
    ensures var w, j := WelcomedBy(s, step), JoinOf(step);
      History(Next(s, step)) == if IsRejected(w, j) then History(RejectJoin(w, j))
                                else History(Attach(w, j, step.draw, step.now))
  {
    var w, j := WelcomedBy(s, step), JoinOf(step);
    hide Welcomed, IsRejected, JoinedId, Attach, RejectJoin, CleanupAt, Joined;
    if IsRejected(w, j) {
      FlushedHistory(RejectJoin(w, j));
    } else {
      var a := Attach(w, j, step.draw, step.now);
      FlushedHistory(a);
      FlushedHistory(Schedule(a, step.now));
    }
    hide Sync, Flush, Schedule, Purges;
  }

  lemma FlushedHistory(s: State)
    ensures History(Flush(s)) == History(s) && History(Sync(s)) == History(s)
    ensures forall id, socket :: History(Accept(Sync(s), id, socket)) == History(s)
    ensures forall now :: History(Schedule(s, now)) == History(s)
  {
    hide CleanupAt;
  }

  lemma RejectionLog(s: State, step: Step, t: State, w: State)
    requires IsJoin(step) && Joined(s, step).None? && IsRejected(w, JoinOf(step))
    requires var id := EnvironmentOwner(w.rows, JoinOf(step).environmentId);
      Holds(s, step, id) && SameIdentity(s.rows[id], w.rows[id])
    ensures LogsJoin(s, step, t, JoinLog(w, JoinOf(step), step.draw))
  {
    assert HasEnvironment(w.rows, JoinOf(step).environmentId);
    hide Joined, Lapses, Purges, IsRejected;
    var id := EnvironmentOwner(w.rows, JoinOf(step).environmentId);
    assert Describes(JoinLog(w, JoinOf(step), step.draw)[0], id, s.rows[id]);
  }

  lemma ReclaimLog(s: State, step: Step, t: State, w: State)
    requires IsJoin(step) && HasEnvironment(w.rows, JoinOf(step).environmentId) && !IsRejected(w, JoinOf(step))
    requires var id := EnvironmentOwner(w.rows, JoinOf(step).environmentId);
      && Joined(s, step) == Some(id) && id in s.rows && SameIdentity(s.rows[id], w.rows[id])
      && (IsLive(w, id) <==> s.rows[id].transport == Public || !Socketless(s, id))
      && id in t.rows && ConnectedBy(t.rows[id], step)
    ensures LogsJoin(s, step, t, JoinLog(w, JoinOf(step), step.draw))
  {
    hide Joined, Socketless, IsLive, IsRejected;
  }

  lemma RegistrationLog(s: State, step: Step, t: State, w: State)
    requires IsJoin(step) && !HasEnvironment(w.rows, JoinOf(step).environmentId)
    requires var id := step.draw.subscriberId;
      Joined(s, step) == Some(id) && id !in s.rows && id in t.rows && ConnectedBy(t.rows[id], step)
    ensures LogsJoin(s, step, t, JoinLog(w, JoinOf(step), step.draw))
  {
    hide Joined, Socketless, IsLive, IsRejected;
    assert !IsRejected(w, JoinOf(step)) by { NobodyRejects(w, JoinOf(step)); }
  }

  lemma NobodyRejects(w: State, j: Join)
    requires !HasEnvironment(w.rows, j.environmentId)
    ensures !IsRejected(w, j)
  {
  }

  lemma DrawnHasNoRow(s: State, draw: Draw)
    requires Inv(s) && FreshDraw(s, draw)
    ensures draw.subscriberId !in s.rows
  {
  }

  lemma JoinLogsJoin(s: State, step: Step, t: State)
    requires Inv(s) && Enabled(s, step) && IsJoin(step) && Purges(step)
    requires Joined(s, step).Some? ==>
      Joined(s, step).value in t.rows && Stores(s, step, Joined(s, step).value, t.rows[Joined(s, step).value])
    ensures LogsJoin(s, step, t, JoinLog(WelcomedBy(s, step), JoinOf(step), step.draw))
  {
    var w := WelcomedBy(s, step);
    EnabledJoin(s, step);
    DrawnHasNoRow(s, step.draw);
    JoinHistory(s, step);
    JoinedIdIs(w, JoinOf(step), step.draw);
    hide Inv, Enabled, Welcomed, IsLive, Socketless, Holds, KeptRows, Joined, JoinedId, IsRejected, LogsJoin, JoinLog;
    if HasEnvironment(w.rows, JoinOf(step).environmentId) {
      var id := EnvironmentOwner(w.rows, JoinOf(step).environmentId);
      PurgedOwner(s, step, id);
      HolderHasRow(s, step, id);
      if IsRejected(w, JoinOf(step)) {
        RejectionLog(s, step, t, w);
      } else {
        ReclaimLog(s, step, t, w);
      }
    } else {
      NobodyRejects(w, JoinOf(step));
      RegistrationLog(s, step, t, w);
    }
  }

  lemma HolderHasRow(s: State, step: Step, id: string)
    requires IsJoin(step) && Holds(s, step, id)
    ensures id in s.rows
  {
  }

  lemma JoinedIdIs(w: State, j: Join, draw: Draw)
    ensures JoinedId(w, j, draw)
         == if HasEnvironment(w.rows, j.environmentId) then EnvironmentOwner(w.rows, j.environmentId)
            else draw.subscriberId
  {
  }

  // ---- the law of the log ----------------------------------------------------------------

  lemma JoinLogLaw(s: State, step: Step)
    requires Inv(s) && Enabled(s, step) && IsJoin(step) && Purges(step)
    ensures LogLaw(s, step, Next(s, step), [], RemovalEvents(s.rows, step.order, step.now),
                   JoinLog(WelcomedBy(s, step), JoinOf(step), step.draw))
  {
    var order, log := step.order, JoinLog(WelcomedBy(s, step), JoinOf(step), step.draw);
    if Joined(s, step).Some? {
      JoinedIsStored(s, step);
    }
    OrderOfJoin(s, step);
    JoinHistory(s, step);
    JoinLogsJoin(s, step, Next(s, step));
    hide *;
    PurgeLogs(s, step.now, order);
    JoinedLog(s, step, Next(s, step), RemovalEvents(s.rows, order, step.now), log);
  }

  lemma JoinedIsStored(s: State, step: Step)
    requires Inv(s) && Enabled(s, step) && IsJoin(step) && Joined(s, step).Some?
    ensures var id := Joined(s, step).value;
      id in Next(s, step).rows && Stores(s, step, id, Next(s, step).rows[id])
  {
    RowAfter(s, step, Joined(s, step).value);
    hide Inv, Enabled, Next, Joined, Stores, LosesRow, Renews;
  }

  lemma JoinedLog(s: State, step: Step, t: State, lapses: seq<Event>, log: seq<Event>)
    requires IsJoin(step) && Purges(step) && LogsLapses(s.rows, step.order, step.now, lapses)
    requires LogsJoin(s, step, t, log) && History(t) == History(s) + lapses + log
    ensures LogLaw(s, step, t, [], lapses, log)
  {
    hide LogsJoin, LogsLapses, History;
    assert History(s) + [] == History(s);
  }

  lemma OrderOfJoin(s: State, step: Step)
    requires Enabled(s, step) && IsJoin(step)
    ensures Enumerates(step.order, Removed(s, step.now))
  {
  }

  lemma DeregisterHistory(s: State, step: Step)
    requires step.Deregister?
    ensures History(Next(s, step)) == History(Purge(Dropped(s, step.subscriberId), step.now, step.order))
  {
    hide Purge, Dropped, CleanupAt;
  }

  function DeregistrationLog(rows: map<string, Row>, id: string): seq<Event> {
    if id in rows then [Gone(rows[id], id, Deregistered)] else []
  }

  lemma DroppedHistory(s: State, id: string)
    ensures History(Dropped(s, id)) == History(s) + DeregistrationLog(s.rows, id)
  {
    DroppedLog(s, id);
    hide Dropped;
  }

  lemma DroppedLog(s: State, id: string)
    ensures Dropped(s, id).flushed == s.flushed
    ensures Dropped(s, id).queued == s.queued + if id in s.rows then [Gone(s.rows[id], id, Deregistered)] else []
  {
    hide Failed, TagSet, ClosedFor;
  }

  lemma DeregisterLogLaw(s: State, step: Step)
    requires Enabled(s, step) && step.Deregister?
    ensures LogLaw(s, step, Next(s, step), DeregistrationLog(s.rows, step.subscriberId),
                   RemovalEvents(Dropped(s, step.subscriberId).rows, step.order, step.now), [])
  {
    var d, id, order := Dropped(s, step.subscriberId), step.subscriberId, step.order;
    OrderOfDeregister(s, step);
    DeregisterHistory(s, step);
    hide *;
    DroppedTables(s, id);
    DroppedHistory(s, id);
    PurgeLogs(d, step.now, order);
    DeregisteredLog(s, step, Next(s, step), d, RemovalEvents(d.rows, order, step.now));
  }

  lemma DeregisteredLog(s: State, step: Step, t: State, d: State, lapses: seq<Event>)
    requires step.Deregister? && d.rows == s.rows - {step.subscriberId}
    requires LogsLapses(d.rows, step.order, step.now, lapses)
    requires History(t) == History(s) + DeregistrationLog(s.rows, step.subscriberId) + lapses
    ensures LogLaw(s, step, t, DeregistrationLog(s.rows, step.subscriberId), lapses, [])
  {
    hide History;
    assert History(t) + [] == History(t);
  }

  lemma OrderOfDeregister(s: State, step: Step)
    requires Enabled(s, step) && step.Deregister?
    ensures Enumerates(step.order, Removed(Dropped(s, step.subscriberId), step.now))
  {
    hide Dropped, Removed;
  }

  lemma SocketGoneLogLaw(s: State, step: Step)
    requires Inv(s) && Enabled(s, step) && step.SocketGone?
    ensures var id := s.sockets[step.socket].tag;
      var rest := if step.socket in s.ignored then []
                  else [Gone(s.rows[id], id, if step.stale then StaleTunnel else SocketClosed)];
      LogLaw(s, step, Next(s, step), [], [], rest)
  {
    SocketHasRow(s, step);
    if step.socket !in s.ignored {
      CurrentIsTunnel(s, step.socket);
    }
    EnabledFacts(s, step);
    DetachedHistory(s, step);
    hide Inv, Enabled, Next, History, Joined;
    GoneLog(s, step, Next(s, step));
  }

  lemma GoneLog(s: State, step: Step, t: State)
    requires step.SocketGone? && step.socket in s.sockets
    requires step.socket !in s.ignored ==> s.sockets[step.socket].tag in s.rows
    requires var id := s.sockets[step.socket].tag;
      History(t) == History(s) + if step.socket in s.ignored then []
                                 else [Gone(s.rows[id], id, if step.stale then StaleTunnel else SocketClosed)]
    ensures var id := s.sockets[step.socket].tag;
      LogLaw(s, step, t, [], [], if step.socket in s.ignored then []
                                 else [Gone(s.rows[id], id, if step.stale then StaleTunnel else SocketClosed)])
  {
    hide History;
    assert History(s) + [] + [] == History(s);
  }

  lemma DetachedHistory(s: State, step: Step)
    requires step.SocketGone? && step.socket in s.sockets
    requires step.socket !in s.ignored ==>
      s.sockets[step.socket].tag in s.rows && s.rows[s.sockets[step.socket].tag].transport == Tunnel
    ensures var id := s.sockets[step.socket].tag;
      History(Next(s, step))
        == History(s) + if step.socket in s.ignored then []
                        else [Gone(s.rows[id], id, if step.stale then StaleTunnel else SocketClosed)]
  {
    hide Failed, CleanupAt, BindingsWithout;
    DetachCases(s, step.now, step.socket, step.stale);
  }

  lemma CurrentIsTunnel(s: State, w: nat)
    requires Inv(s) && w in s.sockets && w !in s.ignored
    ensures s.sockets[w].tag in s.rows && s.rows[s.sockets[w].tag].transport == Tunnel
  {
  }

  lemma {:induction false} FanOutLogsNothing(s: State, ids: seq<string>, requestId: string, tooLarge: bool,
                                             broken: set<string>, now: int)
    ensures var d := DeliverAll(s, ids, requestId, tooLarge, broken, now);
      d.queued == s.queued && d.flushed == s.flushed
    decreases |ids|
  {
    hide Sending;
    if ids != [] {
      FanOutLogsNothing(s, ids[..|ids| - 1], requestId, tooLarge, broken, now);
    }
  }

  lemma DeliveryLogsNothing(s: State, id: string, requestId: string, tooLarge: bool, broken: set<string>, now: int)
    ensures var d := Deliver(s, id, requestId, tooLarge, broken, now);
      d.queued == s.queued && d.flushed == s.flushed
  {
  }

  lemma QueryHistory(s: State, step: Step)
    requires Purges(step) && !IsJoin(step) && !step.Deregister?
    ensures History(Next(s, step)) == History(Purge(s, step.now, step.order))
  {
    hide Purge, DeliverAll, Deliver, CleanupAt, OAuthTarget, NextAlarm, Active;
    var p := Purge(s, step.now, step.order);
    if step.FanOut? {
      FanOutLogsNothing(p, step.targets, step.requestId, step.tooLarge, step.broken, step.now);
    } else if step.ProxyOAuth? {
      var target := OAuthTarget(p, step.oauthState, step.signed, step.now);
      if target.Some? {
        DeliveryLogsNothing(p, target.value, step.requestId, step.tooLarge, step.broken, step.now);
      }
    } else if step.AlarmFires? {
      AlarmHistory(s, step.now, step.order);
    }
  }

  lemma AlarmHistory(s: State, now: int, order: seq<string>)
    ensures History(NextAlarm(s, now, order)) == History(Purge(s, now, order))
  {
    hide Failed, CleanupAt, StaleClosed, KeptRows, KeptBindings, RemovalEvents;
  }

  lemma QueryLogLaw(s: State, step: Step)
    requires Enabled(s, step) && Purges(step) && !IsJoin(step) && !step.Deregister?
    ensures LogLaw(s, step, Next(s, step), [], RemovalEvents(s.rows, step.order, step.now), [])
  {
    var order := step.order;
    OrderOfQuery(s, step);
    QueryHistory(s, step);
    hide *;
    PurgeLogs(s, step.now, order);
    QueriedLog(s, step, Next(s, step), RemovalEvents(s.rows, order, step.now));
  }

  lemma QueriedLog(s: State, step: Step, t: State, lapses: seq<Event>)
    requires Purges(step) && !IsJoin(step) && !step.Deregister?
    requires LogsLapses(s.rows, step.order, step.now, lapses) && History(t) == History(s) + lapses
    ensures LogLaw(s, step, t, [], lapses, [])
  {
    hide History, LogsLapses;
    assert History(s) + [] == History(s) && History(t) + [] == History(t);
  }

  lemma OrderOfQuery(s: State, step: Step)
    requires Enabled(s, step) && Purges(step) && !IsJoin(step) && !step.Deregister?
    ensures Enumerates(step.order, Removed(s, step.now))
  {
    hide Removed, IsFanoutList;
  }

  lemma EventLogLaw(s: State, step: Step)
    requires !Purges(step) && !step.SocketGone?
    ensures LogLaw(s, step, Next(s, step), [], [], [])
  {
    hide Answer, TimeOut;
  }

  /**
   Exactly what a step logs, in this order: the farewell of a deregistered subscriber, one of every row that
   its purge finds lapsed, and what its join or its socket's end has to say, every event with the data of
   the row it is about.
   */
  lemma LogAfter(s: State, step: Step)
    requires Inv(s) && Enabled(s, step)
    ensures exists first, lapses, rest :: LogLaw(s, step, Next(s, step), first, lapses, rest)
  {
    hide Inv, Enabled, Next, LogLaw;
    if step.SocketGone? {
      SocketGoneLogLaw(s, step);
    } else if !Purges(step) {
      EventLogLaw(s, step);
    } else if IsJoin(step) {
      JoinLogLaw(s, step);
    } else if step.Deregister? {
      DeregisterLogLaw(s, step);
    } else {
      QueryLogLaw(s, step);
    }
  }

  // ---- the queue ----------------------------------------------------------------------------

  /** Steps that send the queued events to the index before they end. */
  ghost predicate SendsLog(s: State, step: Step) {
    || (Purges(step) && !step.CountFanout? && !step.FanOut? && !step.ProxyOAuth?)
    || step.FlushLog? || (step.SocketGone? && step.socket !in s.ignored)
  }

  ghost predicate QueueLaw(s: State, step: Step, t: State) {
    if SendsLog(s, step) then t.queued == [] else t.flushed == s.flushed
  }

  lemma PurgeSendsNothing(s: State, now: int, order: seq<string>)
    ensures Purge(s, now, order).flushed == s.flushed
  {
  }

  lemma JoinQueueLaw(s: State, step: Step)
    requires IsJoin(step)
    ensures QueueLaw(s, step, Next(s, step))
  {
    hide Purge, Attach, IsRejected, JoinedId, CleanupAt;
  }

  lemma CallQueueLaw(s: State, step: Step)
    requires Purges(step) && !IsJoin(step)
    ensures QueueLaw(s, step, Next(s, step))
  {
    hide Purge, Dropped, DeliverAll, Deliver, OAuthTarget, CleanupAt, Active;
    PurgeSendsNothing(s, step.now, step.order);
    var p := Purge(s, step.now, step.order);
    if step.FanOut? {
      FanOutLogsNothing(p, step.targets, step.requestId, step.tooLarge, step.broken, step.now);
    } else if step.ProxyOAuth? {
      var target := OAuthTarget(p, step.oauthState, step.signed, step.now);
      if target.Some? {
        DeliveryLogsNothing(p, target.value, step.requestId, step.tooLarge, step.broken, step.now);
      }
    }
  }

  lemma SocketGoneQueueLaw(s: State, step: Step)
    requires step.SocketGone? && step.socket in s.sockets
    requires step.socket !in s.ignored ==> s.sockets[step.socket].tag in s.rows
    ensures QueueLaw(s, step, Next(s, step))
  {
    hide Failed, CleanupAt, BindingsWithout;
    DetachCases(s, step.now, step.socket, step.stale);
  }

  /** A step sends all queued events, and what it logs itself, or none. */
  lemma QueueAfter(s: State, step: Step)
    requires Inv(s) && Enabled(s, step)
    ensures QueueLaw(s, step, Next(s, step))
  {
    EnabledFacts(s, step);
    SocketHasRow(s, step);
    hide Inv, Enabled;
    if IsJoin(step) {
      JoinQueueLaw(s, step);
    } else if step.SocketGone? {
      SocketGoneQueueLaw(s, step);
    } else if Purges(step) {
      CallQueueLaw(s, step);
    } else {
      EventQueueLaw(s, step);
    }
  }

  lemma EventQueueLaw(s: State, step: Step)
    requires !Purges(step) && !IsJoin(step) && !step.SocketGone?
    ensures QueueLaw(s, step, Next(s, step))
  {
    hide Answer, TimeOut;
  }

  // ---- the newest event of a live subscriber ----------------------------------------------------

  /** The last event about a subscriber, rejections aside. */
  function LastEvent(events: seq<Event>, id: string): Option<Event>
    decreases |events|
  {
    if events == [] then None
    else
      var e := events[|events| - 1];
      if e.subscriberId == id && e.action != Rejected then Some(e) else LastEvent(events[..|events| - 1], id)
  }

  lemma {:induction false} LastEventActs(events: seq<Event>, id: string)
    ensures LastEvent(events, id).Some? <==> LastAction(events, id).Some?
    ensures LastEvent(events, id).Some? ==>
      && LastAction(events, id) == Some(LastEvent(events, id).value.action)
      && LastEvent(events, id).value.subscriberId == id
    decreases |events|
  {
    if events != [] {
      LastEventActs(events[..|events| - 1], id);
    }
  }

  /** Events none of which connects the subscriber leave a connected one with the event it had. */
  lemma {:induction false} ConnectedBefore(before: seq<Event>, log: seq<Event>, id: string)
    requires forall i :: 0 <= i < |log| ==> !(log[i].action == Connected && log[i].subscriberId == id)
    requires LastAction(before + log, id) == Some(Connected)
    ensures LastEvent(before + log, id) == LastEvent(before, id)
    decreases |log|
  {
    if log == [] {
      assert before + log == before;
    } else {
      var front := log[..|log| - 1];
      assert (before + log)[..|before + log| - 1] == before + front;
      LastEventActs(before + log, id);
      ConnectedBefore(before, front, id);
    }
  }

  /** The subscriber's last event says what its row does. */
  ghost predicate DescribedByLog(s: State, id: string) {
    InLiveSet(s.rows, s.sockets, s.ignored, id) ==>
      var e := LastEvent(History(s), id);
      e.Some? && e.value.action == Connected && Describes(e.value, id, s.rows[id])
  }

  lemma OnlyJoinsConnect(s: State, step: Step, t: State, first: seq<Event>, lapses: seq<Event>, rest: seq<Event>,
                         id: string)
    requires LogLaw(s, step, t, first, lapses, rest) && Joined(s, step) != Some(id)
    ensures var log := first + lapses + rest;
      forall i :: 0 <= i < |log| ==> !(log[i].action == Connected && log[i].subscriberId == id)
  {
    hide Joined, History, Socketless, Holds, Purges;
  }

  lemma JoinConnectsLast(s: State, step: Step, t: State, first: seq<Event>, lapses: seq<Event>, rest: seq<Event>,
                         id: string)
    requires IsJoin(step) && Purges(step) && LogLaw(s, step, t, first, lapses, rest) && Joined(s, step) == Some(id)
    ensures id in t.rows && LastEvent(History(t), id).Some?
    ensures var e := LastEvent(History(t), id).value;
      e.action == Connected && Describes(e, id, t.rows[id])
  {
    hide Joined, Socketless, Holds, Purges, LogsLapses, LogsFirst, Describes;
    var e := rest[|rest| - 1];
    assert History(t)[|History(t)| - 1] == e;
    assert Describes(e, id, t.rows[id]);
    SubjectOf(e, id, t.rows[id]);
  }

  lemma SubjectOf(e: Event, id: string, row: Row)
    requires Describes(e, id, row)
    ensures e.subscriberId == id
  {
  }

  lemma StepKeepsDescribed(s: State, step: Step, id: string)
    requires Inv(s) && Enabled(s, step) && DescribedByLog(s, id)
    ensures DescribedByLog(Next(s, step), id)
  {
    var t := Next(s, step);
    StepKeeps(s, step);
    LogAfter(s, step);
    RowAfter(s, step, id);
    NotJoined(s, step);
    LiveIsConnected(s, id);
    LiveIsConnected(t, id);
    hide Inv, Enabled, Next, Joined, LosesRow, Renews, InLiveSet, Describes, LogLaw, Stores;
    var first, lapses, rest :| LogLaw(s, step, t, first, lapses, rest);
    if InLiveSet(t.rows, t.sockets, t.ignored, id) {
      if Joined(s, step) == Some(id) {
        JoinedIsPurging(s, step);
        JoinConnectsLast(s, step, t, first, lapses, rest, id);
      } else {
        var log := first + lapses + rest;
        OnlyJoinsConnect(s, step, t, first, lapses, rest, id);
        LoggedHistory(s, step, t, first, lapses, rest);
        ConnectedBefore(History(s), log, id);
        LastEventActs(History(s), id);
        LastEventActs(History(t), id);
        LiveHasRow(s, id);
        LiveHasRow(t, id);
        DescribesSame(LastEvent(History(s), id).value, id, s.rows[id], t.rows[id]);
      }
    }
  }

  lemma LoggedHistory(s: State, step: Step, t: State, first: seq<Event>, lapses: seq<Event>, rest: seq<Event>)
    requires LogLaw(s, step, t, first, lapses, rest)
    ensures History(t) == History(s) + (first + lapses + rest)
  {
    hide History, LogsFirst, LogsLapses, LogsRest, Purges;
  }

  lemma JoinedIsPurging(s: State, step: Step)
    requires Joined(s, step).Some?
    ensures IsJoin(step) && Purges(step)
  {
    hide IsRejected, Welcomed, JoinedId;
  }

  lemma LiveHasRow(s: State, id: string)
    requires InLiveSet(s.rows, s.sockets, s.ignored, id)
    ensures id in s.rows
  {
  }

  lemma DescribesSame(e: Event, id: string, before: Row, after: Row)
    requires Describes(e, id, before) && SameIdentity(before, after)
    ensures Describes(e, id, after)
  {
  }

  lemma LiveIsConnected(s: State, id: string)
    requires Inv(s)
    ensures LastAction(History(s), id) == Some(Connected) <==> InLiveSet(s.rows, s.sockets, s.ignored, id)
  {
  }

  lemma {:induction false} RunKeepsDescribed(s: State, steps: seq<Step>, id: string)
    requires Inv(s) && Runs(s, steps) && DescribedByLog(s, id)
    ensures DescribedByLog(After(s, steps), id)
    decreases |steps|
  {
    hide Inv, Enabled, Next, DescribedByLog;
    if steps != [] {
      StepKeeps(s, steps[0]);
      StepKeepsDescribed(s, steps[0], id);
      RunKeepsDescribed(Next(s, steps[0]), steps[1..], id);
    }
  }

  /**
   In every reachable state the last event about a live subscriber, rejections aside, is its `connected`
   one, with the environment, transport and target that its row has now.
   */
  lemma LogDescribesLiveRows(s: State, id: string)
    requires Reachable(s) && InLiveSet(s.rows, s.sockets, s.ignored, id)
    ensures var e := LastEvent(History(s), id);
      e.Some? && e.value.action == Connected && Describes(e.value, id, s.rows[id])
  {
    var s0: State, steps: seq<Step> :| Initial(s0) && Runs(s0, steps) && s == After(s0, steps);
    InitialHolds(s0);
    RunKeepsDescribed(s0, steps, id);
  }
}
