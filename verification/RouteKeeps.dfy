/** Every step of the per-route object keeps its invariant. */
module RouteKeeps {
  import opened Wrappers
  import opened RouteState
  import opened RouteSteps
  import opened RouteInvariant
  import opened RoutePrimitives

  lemma FlushKeepsHistory(s: State)
    ensures History(Flush(s)) == History(s)
  {
  }

  lemma SyncRestores(s: State, now: int)
    requires Core(s, now) && RouteIdOk(s)
    requires AlarmOk(s.alarm, s.scheduledAt, s.rows, s.sockets, s.ignored)
    ensures InvAt(Sync(s), now)
  {
    FlushKeepsHistory(s);
  }

  lemma FlushKeeps(s: State, now: int)
    requires InvAt(s, now)
    ensures InvAt(Flush(s), now)
  {
    FlushKeepsHistory(s);
  }

  lemma ScheduleKeeps(s: State, now: int)
    requires Core(s, now)
    ensures var t := Schedule(s, now);
      Core(t, now) && AlarmOk(t.alarm, t.scheduledAt, t.rows, t.sockets, t.ignored)
  {
    ScheduleKeepsAlarm(s, now, s.usedIds);
  }

  /** The same rows with the same transport and environment, and no earlier expiry. */
  ghost predicate Reshaped(rows: map<string, Row>, updated: map<string, Row>) {
    && rows.Keys == updated.Keys
    && forall id :: id in rows ==>
         && updated[id].transport == rows[id].transport
         && updated[id].environmentId == rows[id].environmentId
         && updated[id].expiresAt >= rows[id].expiresAt
  }

  lemma ReshapedTables(rows: map<string, Row>, updated: map<string, Row>, bindings: map<string, Binding>,
                       pending: map<string, Pending>, sockets: map<nat, Socket>, ignored: set<nat>)
    requires Reshaped(rows, updated)
    requires EnvironmentsUnique(rows) && BindingsOk(bindings, rows) && PendingOk(pending, rows)
    requires SocketsOk(sockets, ignored, rows) && AnonymousHaveSocket(sockets, ignored, rows)
    ensures EnvironmentsUnique(updated) && BindingsOk(bindings, updated) && PendingOk(pending, updated)
    ensures SocketsOk(sockets, ignored, updated) && AnonymousHaveSocket(sockets, ignored, updated)
  {
  }

  /** Sockets that close or report a ping, with the ignore set as it was. */
  ghost predicate Quieter(sockets: map<nat, Socket>, updated: map<nat, Socket>) {
    && sockets.Keys == updated.Keys
    && forall w :: w in sockets ==> updated[w].tag == sockets[w].tag && (updated[w].open ==> sockets[w].open)
  }

  lemma QuieterSees(sockets: map<nat, Socket>, updated: map<nat, Socket>, ignored: set<nat>, id: string)
    requires Quieter(sockets, updated)
    ensures HasCurrent(updated, ignored, id) <==> HasCurrent(sockets, ignored, id)
    ensures HasOpen(updated, id) ==> HasOpen(sockets, id)
  {
    if w :| w in sockets && sockets[w].tag == id && w !in ignored {
      assert updated[w].tag == id;
    }
    if w :| w in updated && updated[w].tag == id && updated[w].open {
      assert sockets[w].tag == id && sockets[w].open;
    }
  }

  lemma ViewsCarryOver(indexed: bool, alarm: Option<int>, scheduledAt: int, history: seq<Event>,
                       rows: map<string, Row>, updated: map<string, Row>,
                       sockets: map<nat, Socket>, quieter: map<nat, Socket>, ignored: set<nat>)
    requires Reshaped(rows, updated) && Quieter(sockets, quieter)
    requires IndexOk(indexed, rows, sockets) && AlarmOk(alarm, scheduledAt, rows, sockets, ignored)
    requires ReplayOk(history, rows, sockets, ignored)
    ensures IndexOk(indexed, updated, quieter) && AlarmOk(alarm, scheduledAt, updated, quieter, ignored)
    ensures ReplayOk(history, updated, quieter, ignored)
  {
    forall id ensures InLiveSet(updated, quieter, ignored, id) <==> InLiveSet(rows, sockets, ignored, id) {
      QuieterSees(sockets, quieter, ignored, id);
    }
    forall id | IsActive(updated, quieter, id) ensures indexed {
      QuieterSees(sockets, quieter, ignored, id);
      assert IsActive(rows, sockets, id);
    }
    forall id | NeedsAlarm(updated, quieter, ignored, id)
      ensures alarm.Some? && alarm.value <= Later(updated[id].expiresAt, scheduledAt + CLEANUP_MIN_DELAY_MS)
    {
      QuieterSees(sockets, quieter, ignored, id);
      assert NeedsAlarm(rows, sockets, ignored, id);
    }
  }

  lemma ExtendKeeps(s: State, id: string, now: int)
    requires InvAt(s, now)
    ensures InvAt(Extend(s, id, now), now)
  {
    if id in s.rows {
      var e := Extend(s, id, now);
      assert Reshaped(s.rows, e.rows);
      ReshapedTables(s.rows, e.rows, s.bindings, s.requests.pending, s.sockets, s.ignored);
      ViewsCarryOver(s.indexed, s.alarm, s.scheduledAt, History(s), s.rows, e.rows, s.sockets, s.sockets, s.ignored);
    }
  }

  // ---- closing sockets -----------------------------------------------------------

  lemma ClosedForKeepsOthers(sockets: map<nat, Socket>, ignored: set<nat>, id: string, other: string)
    ensures var c := ClosedFor(sockets, id);
      var i := ignored + TagSet(sockets, id);
      && !HasCurrent(c, i, id)
      && !HasOpen(c, id)
      && (other != id ==> (HasCurrent(c, i, other) <==> HasCurrent(sockets, ignored, other)))
      && (HasOpen(c, other) ==> HasOpen(sockets, other))
  {
    var c := ClosedFor(sockets, id);
    if w :| w in sockets && sockets[w].tag == other && w !in ignored && other != id {
      assert c[w].tag == other;
    }
    if w :| w in c && c[w].tag == other && c[w].open {
      assert sockets[w].tag == other && sockets[w].open;
    }
  }

  // ---- joins ---------------------------------------------------------------------

  lemma RejectKeeps(s: State, j: Join, now: int)
    requires InvAt(s, now) && IsRejected(s, j)
    ensures InvAt(RejectJoin(s, j), now)
  {
    var r := RejectJoin(s, j);
    var e := r.queued[|s.queued|];
    assert History(r) == History(s) + [e];
    AlternatesAppend(History(s), e);
    forall id ensures LastAction(History(r), id) == LastAction(History(s), id) {
      LastActionAppend(History(s), e, id);
    }
  }

  lemma PluggedCurrent(sockets: map<nat, Socket>, ignored: set<nat>, id: string, socket: nat, other: string)
    requires socket !in sockets && socket !in ignored
    ensures var p := sockets[socket := Socket(id, true, None)];
      HasCurrent(p, ignored, other) <==> other == id || HasCurrent(sockets, ignored, other)
  {
    var p := sockets[socket := Socket(id, true, None)];
    assert p[socket].tag == id;
    if w :| w in sockets && sockets[w].tag == other && w !in ignored {
      assert p[w].tag == other;
    }
  }

  /** The sockets after a join: the subscriber's old ones closed and ignored, a tunnel's new one listed. */
  ghost function JoinedSockets(sockets: map<nat, Socket>, id: string, transport: Transport,
                               socket: nat): map<nat, Socket> {
    var closed := ClosedFor(sockets, id);
    if transport == Tunnel then closed[socket := Socket(id, true, None)] else closed
  }

  lemma JoinedCurrent(sockets: map<nat, Socket>, ignored: set<nat>, id: string, transport: Transport, socket: nat,
                      other: string)
    requires transport == Tunnel ==> socket !in sockets && socket !in ignored
    ensures HasCurrent(JoinedSockets(sockets, id, transport, socket), ignored + TagSet(sockets, id), other)
       <==> if other == id then transport == Tunnel else HasCurrent(sockets, ignored, other)
  {
    ClosedForKeepsOthers(sockets, ignored, id, other);
    if transport == Tunnel {
      PluggedCurrent(ClosedFor(sockets, id), ignored + TagSet(sockets, id), id, socket, other);
    }
  }

  lemma JoinedSocketsOk(sockets: map<nat, Socket>, ignored: set<nat>, rows: map<string, Row>, usedIds: set<string>,
                        id: string, row: Row, socket: nat)
    requires SocketTags(sockets, usedIds) && SocketsOk(sockets, ignored, rows)
    requires row.transport == Tunnel ==> socket !in sockets && socket !in ignored
    ensures var joined := JoinedSockets(sockets, id, row.transport, socket);
      SocketTags(joined, usedIds + {id}) && SocketsOk(joined, ignored + TagSet(sockets, id), rows[id := row])
  {
    hide ClosedFor, TagSet, SocketsOk, SocketTags;
    var closed, quiet := ClosedFor(sockets, id), ignored + TagSet(sockets, id);
    ClosedSocketsOk(sockets, ignored, rows, usedIds, id);
    NoneTaggedIsCurrent(sockets, ignored, id);
    RowReplaced(closed, quiet, rows, usedIds, id, row);
    if row.transport == Tunnel {
      SocketPlugged(closed, quiet, rows[id := row], usedIds + {id}, id, socket);
    }
  }

  /** The row of a subscriber without a current socket may become any row. */
  lemma RowReplaced(sockets: map<nat, Socket>, ignored: set<nat>, rows: map<string, Row>, usedIds: set<string>,
                    id: string, row: Row)
    requires SocketTags(sockets, usedIds) && SocketsOk(sockets, ignored, rows)
    requires forall w :: w in sockets && w !in ignored ==> sockets[w].tag != id
    ensures SocketTags(sockets, usedIds + {id}) && SocketsOk(sockets, ignored, rows[id := row])
  {
  }

  /** Such a subscriber, if it is a tunnel, may get a socket. */
  lemma SocketPlugged(sockets: map<nat, Socket>, ignored: set<nat>, rows: map<string, Row>, usedIds: set<string>,
                      id: string, socket: nat)
    requires SocketTags(sockets, usedIds) && SocketsOk(sockets, ignored, rows) && id in usedIds
    requires forall w :: w in sockets && w !in ignored ==> sockets[w].tag != id
    requires id in rows && rows[id].transport == Tunnel && socket !in sockets && socket !in ignored
    ensures var plugged := sockets[socket := Socket(id, true, None)];
      SocketTags(plugged, usedIds) && SocketsOk(plugged, ignored, rows)
  {
  }

  lemma NoneTaggedIsCurrent(sockets: map<nat, Socket>, ignored: set<nat>, id: string)
    ensures var closed, quiet := ClosedFor(sockets, id), ignored + TagSet(sockets, id);
      && closed.Keys == sockets.Keys && ignored <= quiet
      && (forall w :: w in quiet && w !in ignored ==> w in sockets)
      && (forall w :: w in closed && w !in quiet ==> closed[w].tag != id)
  {
  }

  /** Closing and ignoring a subscriber's sockets leaves the others in order. */
  lemma ClosedSocketsOk(sockets: map<nat, Socket>, ignored: set<nat>, rows: map<string, Row>, usedIds: set<string>,
                        id: string)
    requires SocketTags(sockets, usedIds) && SocketsOk(sockets, ignored, rows)
    ensures var closed, quiet := ClosedFor(sockets, id), ignored + TagSet(sockets, id);
      SocketTags(closed, usedIds) && SocketsOk(closed, quiet, rows)
  {
  }

  lemma JoinedRowsOk(rows: map<string, Row>, usedIds: set<string>, id: string, row: Row, now: int)
    requires RowsOk(rows, usedIds, now) && EnvironmentsUnique(rows) && RowOk(row, now)
    requires row.environmentId.Some? ==>
      forall other :: other in rows && rows[other].environmentId == row.environmentId ==> other == id
    ensures RowsOk(rows[id := row], usedIds + {id}, now) && EnvironmentsUnique(rows[id := row])
  {
  }

  /** The socket a tunnel join ends with; a public join has none. */
  ghost function Plugged(s: State, j: Join, id: string, socket: nat): State {
    if j.transport == Tunnel then Accept(s, id, socket) else s
  }

  ghost predicate CanAttach(s: State, j: Join, draw: Draw, socket: nat, now: int) {
    && InvAt(s, now) && !IsRejected(s, j) && FreshDraw(s, draw)
    && j.environmentId != Some("")
    && (j.transport == Tunnel ==> socket !in s.sockets && socket !in s.ignored)
  }

  ghost function JoinedRow(s: State, j: Join, draw: Draw, now: int): Row {
    if HasEnvironment(s.rows, j.environmentId)
    then ReclaimedRow(s.rows[EnvironmentOwner(s.rows, j.environmentId)], j, draw, now)
    else CreatedRow(j, draw, now)
  }

  /** A reclaim's farewell to the connection it replaces. */
  ghost function Farewell(s: State, j: Join): seq<Event> {
    if HasEnvironment(s.rows, j.environmentId) && IsLive(s, EnvironmentOwner(s.rows, j.environmentId))
    then [Gone(s.rows[EnvironmentOwner(s.rows, j.environmentId)], EnvironmentOwner(s.rows, j.environmentId), Replaced)]
    else []
  }

  ghost function Greeting(s: State, j: Join, draw: Draw): Event {
    ConnectedEvent(JoinedId(s, j, draw), j, if HasEnvironment(s.rows, j.environmentId) then Reclaimed else Registered)
  }

  lemma NothingTagged(s: State, now: int, id: string)
    requires InvAt(s, now) && id !in s.usedIds
    ensures ClosedFor(s.sockets, id) == s.sockets && TagSet(s.sockets, id) == {}
    ensures Failed(s.requests, {id}, SubscriberGone("subscriber_replaced")) == s.requests
  {
    hide IndexOk, AlarmOk, RouteIdOk, HasCurrent, HasOpen, Listed, ReplayOk, HistoryIds, Alternates, History;
  }

  ghost predicate JoinShape(s: State, t: State, j: Join, draw: Draw, now: int) {
    var id := JoinedId(s, j, draw);
    && t.rows == s.rows[id := JoinedRow(s, j, draw, now)]
    && t.sockets == ClosedFor(s.sockets, id)
    && t.ignored == s.ignored + TagSet(s.sockets, id)
    && t.usedIds == s.usedIds + {id}
    && t.queued == s.queued + Farewell(s, j) + [Greeting(s, j, draw)]
    && t.bindings == s.bindings
    && t.requests == Failed(s.requests, {id}, SubscriberGone("subscriber_replaced"))
  }

  /** A join, field by field: creating a row is reclaiming one nobody has heard of. */
  lemma AttachShape(s: State, j: Join, draw: Draw, now: int)
    requires InvAt(s, now) && FreshDraw(s, draw)
    ensures JoinShape(s, Attach(s, j, draw, now), j, draw, now)
  {
    if HasEnvironment(s.rows, j.environmentId) {
      ReclaimShape(s, j, draw, now);
    } else {
      NothingTagged(s, now, draw.subscriberId);
      assert s.queued + [] == s.queued;
      assert s.ignored + {} == s.ignored;
    }
  }

  lemma ReclaimShape(s: State, j: Join, draw: Draw, now: int)
    requires RowsOk(s.rows, s.usedIds, now)
    requires HasEnvironment(s.rows, j.environmentId)
    ensures JoinShape(s, Attach(s, j, draw, now), j, draw, now)
  {
    var id := EnvironmentOwner(s.rows, j.environmentId);
    assert id in s.usedIds;
    assert s.usedIds + {id} == s.usedIds;
  }

  /** A parked or new subscriber is not connected in the log. */
  lemma NotConnectedYet(s: State, j: Join, draw: Draw, now: int)
    requires InvAt(s, now) && FreshDraw(s, draw)
    requires Farewell(s, j) == []
    ensures LastAction(History(s), JoinedId(s, j, draw)) != Some(Connected)
  {
    assert !InLiveSet(s.rows, s.sockets, s.ignored, JoinedId(s, j, draw));
  }

  lemma FarewellHistory(s: State, j: Join, draw: Draw, now: int)
    requires InvAt(s, now) && FreshDraw(s, draw)
    ensures var before := History(s) + Farewell(s, j);
      var id := JoinedId(s, j, draw);
      && Alternates(before)
      && HistoryIds(before, s.usedIds)
      && LastAction(before, id) != Some(Connected)
      && forall other :: other != id ==> LastAction(before, other) == LastAction(History(s), other)
  {
    var before := History(s) + Farewell(s, j);
    if Farewell(s, j) == [] {
      assert before == History(s);
      NotConnectedYet(s, j, draw, now);
    } else {
      var farewell := Farewell(s, j)[0];
      assert before == History(s) + [farewell];
      AlternatesAppend(History(s), farewell);
      forall other ensures LastAction(before, other) ==
        if other == farewell.subscriberId then Some(Disconnected) else LastAction(History(s), other)
      {
        LastActionAppend(History(s), farewell, other);
      }
    }
  }

  lemma JoinedReplay(before: seq<Event>, joined: Event, history: seq<Event>, rows: map<string, Row>, row: Row,
                     sockets: map<nat, Socket>, ignored: set<nat>, id: string, socket: nat)
    requires ReplayOk(history, rows, sockets, ignored)
    requires forall other :: other != id ==> LastAction(before, other) == LastAction(history, other)
    requires joined.action == Connected && joined.subscriberId == id
    requires row.transport == Tunnel ==> socket !in sockets && socket !in ignored
    ensures ReplayOk(before + [joined], rows[id := row], JoinedSockets(sockets, id, row.transport, socket),
                     ignored + TagSet(sockets, id))
  {
    forall other ensures LastAction(before + [joined], other) == Some(Connected)
      <==>
        InLiveSet(rows[id := row], JoinedSockets(sockets, id, row.transport, socket), ignored + TagSet(sockets, id),
                  other)
    {
      LastActionAppend(before, joined, other);
      JoinedCurrent(sockets, ignored, id, row.transport, socket, other);
    }
  }

  lemma JoinHistory(s: State, j: Join, draw: Draw, now: int)
    requires JoinShape(s, Attach(s, j, draw, now), j, draw, now)
    ensures History(Attach(s, j, draw, now)) == History(s) + Farewell(s, j) + [Greeting(s, j, draw)]
  {
    assert s.flushed + (s.queued + Farewell(s, j) + [Greeting(s, j, draw)])
        == s.flushed + s.queued + Farewell(s, j) + [Greeting(s, j, draw)];
  }

  lemma AttachHistory(s: State, j: Join, draw: Draw, socket: nat, now: int)
    requires CanAttach(s, j, draw, socket, now)
    ensures var t := Plugged(Attach(s, j, draw, now), j, JoinedId(s, j, draw), socket);
      && HistoryIds(History(t), t.usedIds)
      && Alternates(History(t))
      && ReplayOk(History(t), t.rows, t.sockets, t.ignored)
  {
    AttachShape(s, j, draw, now);
    var id := JoinedId(s, j, draw);
    var t := Plugged(Attach(s, j, draw, now), j, id, socket);
    var before := History(s) + Farewell(s, j);
    var joined := Greeting(s, j, draw);
    JoinHistory(s, j, draw, now);
    FarewellHistory(s, j, draw, now);
    AlternatesAppend(before, joined);
    JoinedReplay(before, joined, History(s), s.rows, JoinedRow(s, j, draw, now), s.sockets, s.ignored, id, socket);
  }

  lemma AttachSettles(s: State, j: Join, draw: Draw, socket: nat, now: int)
    requires CanAttach(s, j, draw, socket, now)
    ensures var t := Plugged(Attach(s, j, draw, now), j, JoinedId(s, j, draw), socket);
      && BindingsOk(t.bindings, t.rows)
      && PendingOk(t.requests.pending, t.rows)
      && SettlementOk(t.requests)
  {
    AttachShape(s, j, draw, now);
    FailingSettles(s.requests, {JoinedId(s, j, draw)}, SubscriberGone("subscriber_replaced"));
  }

  lemma AttachRows(s: State, j: Join, draw: Draw, socket: nat, now: int)
    requires CanAttach(s, j, draw, socket, now)
    ensures var t := Plugged(Attach(s, j, draw, now), j, JoinedId(s, j, draw), socket);
      && RowsOk(t.rows, t.usedIds, now)
      && EnvironmentsUnique(t.rows)
      && SocketTags(t.sockets, t.usedIds)
      && SocketsOk(t.sockets, t.ignored, t.rows)
  {
    var id := JoinedId(s, j, draw);
    var row := JoinedRow(s, j, draw, now);
    AttachShape(s, j, draw, now);
    assert RowOk(row, now);
    JoinedRowsOk(s.rows, s.usedIds, id, row, now);
    JoinedSocketsOk(s.sockets, s.ignored, s.rows, s.usedIds, id, row, socket);
  }

  lemma AttachKeeps(s: State, j: Join, draw: Draw, socket: nat, now: int)
    requires CanAttach(s, j, draw, socket, now)
    ensures Core(Plugged(Attach(s, j, draw, now), j, JoinedId(s, j, draw), socket), now)
  {
    AttachRows(s, j, draw, socket, now);
    AttachSettles(s, j, draw, socket, now);
    AttachHistory(s, j, draw, socket, now);
    AttachShape(s, j, draw, now);
    var id := JoinedId(s, j, draw);
    JoinedAnonymous(s.sockets, s.ignored, s.rows, id, JoinedRow(s, j, draw, now), socket);
  }

  lemma JoinedAnonymous(sockets: map<nat, Socket>, ignored: set<nat>, rows: map<string, Row>, id: string, row: Row,
                        socket: nat)
    requires AnonymousHaveSocket(sockets, ignored, rows)
    requires row.transport == Tunnel ==> socket !in sockets && socket !in ignored
    ensures AnonymousHaveSocket(JoinedSockets(sockets, id, row.transport, socket), ignored + TagSet(sockets, id),
                                rows[id := row])
  {
    forall other | other in rows[id := row]
      ensures HasCurrent(JoinedSockets(sockets, id, row.transport, socket), ignored + TagSet(sockets, id), other)
        <==> if other == id then row.transport == Tunnel else HasCurrent(sockets, ignored, other)
    {
      JoinedCurrent(sockets, ignored, id, row.transport, socket, other);
    }
  }

  lemma JoinedAlarm(alarm: Option<int>, scheduledAt: int, sockets: map<nat, Socket>, ignored: set<nat>,
                    rows: map<string, Row>, id: string, row: Row, socket: nat)
    requires AlarmOk(alarm, scheduledAt, rows, sockets, ignored) && row.transport == Tunnel
    requires row.transport == Tunnel ==> socket !in sockets && socket !in ignored
    ensures AlarmOk(alarm, scheduledAt, rows[id := row], JoinedSockets(sockets, id, row.transport, socket),
                    ignored + TagSet(sockets, id))
  {
    var joined, quiet := JoinedSockets(sockets, id, row.transport, socket), ignored + TagSet(sockets, id);
    var updated := rows[id := row];
    forall other | NeedsAlarm(updated, joined, quiet, other)
      ensures alarm.Some? && alarm.value <= Later(updated[other].expiresAt, scheduledAt + CLEANUP_MIN_DELAY_MS)
    {
      JoinedCurrent(sockets, ignored, id, row.transport, socket, other);
      assert NeedsAlarm(rows, sockets, ignored, other);
    }
  }

  lemma AttachTunnelAlarm(s: State, j: Join, draw: Draw, socket: nat, now: int)
    requires CanAttach(s, j, draw, socket, now) && j.transport == Tunnel
    ensures var t := Plugged(Attach(s, j, draw, now), j, JoinedId(s, j, draw), socket);
      AlarmOk(t.alarm, t.scheduledAt, t.rows, t.sockets, t.ignored)
  {
    AttachShape(s, j, draw, now);
    JoinedAlarm(s.alarm, s.scheduledAt, s.sockets, s.ignored, s.rows, JoinedId(s, j, draw), JoinedRow(s, j, draw, now),
                socket);
  }

  lemma WelcomedKeeps(s: State, now: int, routeId: string, order: seq<string>)
    requires InvAt(s, now) && Enumerates(order, Removed(s, now)) && routeId == s.name
    ensures InvAt(Welcomed(s, now, routeId, order), now)
  {
    PurgeKeeps(s, now, order);
  }

  lemma FetchKeeps(s: State, step: Step)
    requires step.Fetch? && Enabled(s, step) && InvAt(s, step.now)
    ensures InvAt(NextFetch(s, step), step.now)
  {
    hide Core, AlarmOk, IndexOk, Attach, Purge, IsRejected, JoinedId, RejectJoin;
    if !BadEnvironmentParam(step.environmentParam) {
      var w := Welcomed(s, step.now, step.routeId, step.order);
      var j := TunnelJoin(step);
      WelcomedKeeps(s, step.now, step.routeId, step.order);
      PurgeFrame(s, step.now, step.order);
      AttachFrame(w, j, step.draw, step.now);
      if IsRejected(w, j) {
        RejectKeeps(w, j, step.now);
        FlushKeeps(RejectJoin(w, j), step.now);
      } else {
        AttachKeeps(w, j, step.draw, step.socket, step.now);
        AttachTunnelAlarm(w, j, step.draw, step.socket, step.now);
        var id := JoinedId(w, j, step.draw);
        SyncRestores(Accept(Attach(w, j, step.draw, step.now), id, step.socket), step.now);
        assert NextFetch(s, step) == Sync(Accept(Attach(w, j, step.draw, step.now), id, step.socket));
      }
    }
  }

  lemma RegisterKeeps(s: State, step: Step)
    requires step.Register? && Enabled(s, step) && InvAt(s, step.now)
    ensures InvAt(NextRegister(s, step), step.now)
  {
    var w := Welcomed(s, step.now, step.routeId, step.order);
    var j := PublicJoin(step);
    WelcomedKeeps(s, step.now, step.routeId, step.order);
    if IsRejected(w, j) {
      RejectKeeps(w, j, step.now);
      FlushKeeps(RejectJoin(w, j), step.now);
    } else {
      AttachKeeps(w, j, step.draw, 0, step.now);
      var t := Attach(w, j, step.draw, step.now);
      ScheduleKeeps(t, step.now);
      SyncRestores(Schedule(t, step.now), step.now);
    }
  }

  // ---- subscriber calls ------------------------------------------------------------

  lemma HeartbeatKeeps(s: State, now: int, id: string, order: seq<string>)
    requires InvAt(s, now) && Enumerates(order, Removed(s, now))
    ensures InvAt(NextHeartbeat(s, now, id, order), now)
  {
    hide Core, AlarmOk, IndexOk, Purge, Removed;
    PurgeKeeps(s, now, order);
    var p := Purge(s, now, order);
    if id in p.rows && p.rows[id].expiresAt > now {
      ExtendKeeps(p, id, now);
      ScheduleKeeps(Extend(p, id, now), now);
      FlushKeeps(Schedule(Extend(p, id, now), now), now);
    } else {
      FlushKeeps(p, now);
    }
  }

  lemma DroppedShape(s: State, id: string, now: int)
    requires InvAt(s, now)
    ensures var d := Dropped(s, id);
      && d.rows == s.rows - {id}
      && d.sockets == ClosedFor(s.sockets, id)
      && d.ignored == s.ignored + TagSet(s.sockets, id)
      && d.bindings == BindingsWithout(s.bindings, {id})
      && d.requests.pending == PendingWithout(s.requests.pending, {id})
      && History(d) == History(s) + (if id in s.rows then [Gone(s.rows[id], id, Deregistered)] else [])
  {
    if id !in s.rows {
      assert s.rows - {id} == s.rows;
      assert BindingsWithout(s.bindings, {id}) == s.bindings;
      assert History(s) + [] == History(s);
    }
  }

  lemma DroppedSees(sockets: map<nat, Socket>, ignored: set<nat>, rows: map<string, Row>, id: string, indexed: bool,
                    alarm: Option<int>, scheduledAt: int)
    requires SocketsOk(sockets, ignored, rows) && AnonymousHaveSocket(sockets, ignored, rows)
    requires IndexOk(indexed, rows, sockets) && AlarmOk(alarm, scheduledAt, rows, sockets, ignored)
    ensures var c, i := ClosedFor(sockets, id), ignored + TagSet(sockets, id);
      && SocketsOk(c, i, rows - {id})
      && AnonymousHaveSocket(c, i, rows - {id})
      && IndexOk(indexed, rows - {id}, c)
      && AlarmOk(alarm, scheduledAt, rows - {id}, c, i)
  {
    var c, i := ClosedFor(sockets, id), ignored + TagSet(sockets, id);
    assert forall w :: w in c && w !in i ==> c[w] == sockets[w] && c[w].tag != id;
    forall other | other in rows - {id}
      ensures IsActive(rows - {id}, c, other) ==> IsActive(rows, sockets, other)
      ensures NeedsAlarm(rows - {id}, c, i, other) ==> NeedsAlarm(rows, sockets, ignored, other)
      ensures HasCurrent(c, i, other) <==> HasCurrent(sockets, ignored, other)
    {
      ClosedForKeepsOthers(sockets, ignored, id, other);
    }
  }

  lemma DroppedHistory(s: State, id: string, now: int)
    requires InvAt(s, now)
    ensures var d := Dropped(s, id);
      && HistoryIds(History(d), s.usedIds) && Alternates(History(d))
      && ReplayOk(History(d), d.rows, d.sockets, d.ignored)
  {
    hide HasCurrent, HasOpen, Listed, IndexOk, AlarmOk, RouteIdOk;
    var d := Dropped(s, id);
    DroppedShape(s, id, now);
    if id in s.rows {
      var e := Gone(s.rows[id], id, Deregistered);
      AlternatesAppend(History(s), e);
    }
    forall other ensures LastAction(History(d), other) == Some(Connected) <==>
      InLiveSet(d.rows, d.sockets, d.ignored, other) {
      ClosedForKeepsOthers(s.sockets, s.ignored, id, other);
      if id in s.rows {
        LastActionAppend(History(s), Gone(s.rows[id], id, Deregistered), other);
      }
      assert LastAction(History(s), other) == Some(Connected) <==> InLiveSet(s.rows, s.sockets, s.ignored, other);
    }
  }

  lemma DroppedKeeps(s: State, id: string, now: int)
    requires InvAt(s, now)
    ensures InvAt(Dropped(s, id), now)
  {
    DroppedShape(s, id, now);
    DroppedSees(s.sockets, s.ignored, s.rows, id, s.indexed, s.alarm, s.scheduledAt);
    DroppedHistory(s, id, now);
    FailingSettles(s.requests, {id}, SubscriberGone("subscriber_disconnected"));
  }

  lemma DeregisterKeeps(s: State, now: int, id: string, order: seq<string>)
    requires InvAt(s, now) && Enumerates(order, Removed(Dropped(s, id), now))
    ensures InvAt(NextDeregister(s, now, id, order), now)
  {
    DroppedKeeps(s, id, now);
    PurgeKeeps(Dropped(s, id), now, order);
    var p := Purge(Dropped(s, id), now, order);
    if p.rows == map[] {
      SyncRestores(p.(alarm := None), now);
    } else {
      ScheduleKeeps(p, now);
      SyncRestores(Schedule(p, now), now);
    }
  }

  lemma BindKeeps(s: State, now: int, id: string, oauthState: string, order: seq<string>)
    requires InvAt(s, now) && Enumerates(order, Removed(s, now))
    ensures InvAt(NextBind(s, now, id, oauthState, order), now)
  {
    hide KeptRows, KeptBindings, Removed, StaleClosed, RemovalEvents, Failed, SettlementOk, TimersSoon, PendingOk,
         SocketsOk, SocketTags, AnonymousHaveSocket;
    if BindableState(oauthState) {
      PurgeKeeps(s, now, order);
      var p := Purge(s, now, order);
      FlushKeeps(p, now);
    }
  }

  lemma PruneKeeps(s: State, now: int, order: seq<string>)
    requires InvAt(s, now) && Enumerates(order, Removed(s, now))
    ensures InvAt(NextPrune(s, now, order), now)
  {
    PurgeKeeps(s, now, order);
    FlushKeeps(Purge(s, now, order), now);
    var p := Flush(Purge(s, now, order));
    if Active(p) == {} {
      forall id ensures !IsActive(p.rows, p.sockets, id) {
        assert id !in Active(p);
      }
    }
  }

  // ---- deliveries --------------------------------------------------------------------

  lemma SendKeeps(s: State, id: string, requestId: string, broken: set<string>, now: int)
    requires InvAt(s, now) && id in s.rows && s.rows[id].transport == Tunnel
    ensures InvAt(SendAndWait(s, id, requestId, broken, now), now)
  {
    SendSettles(s, id, requestId, broken, now);
    SendTouchesRequests(s, id, requestId, broken, now);
  }

  lemma SendTouchesRequests(s: State, id: string, requestId: string, broken: set<string>, now: int)
    requires PendingOk(s.requests.pending, s.rows) && TimersSoon(s.requests.timers, now)
    requires id in s.rows && s.rows[id].transport == Tunnel
    ensures var d := SendAndWait(s, id, requestId, broken, now);
      && PendingOk(d.requests.pending, d.rows)
      && TimersSoon(d.requests.timers, now)
  {
  }

  lemma DeliverKeeps(s: State, id: string, requestId: string, tooLarge: bool, broken: set<string>, now: int)
    requires InvAt(s, now)
    ensures InvAt(Deliver(s, id, requestId, tooLarge, broken, now), now)
  {
    ExtendKeeps(s, id, now);
    if id in s.rows && s.rows[id].transport == Tunnel {
      SendKeeps(Extend(s, id, now), id, requestId, broken, now);
    }
  }

  lemma {:induction false} DeliverAllKeeps(s: State, ids: seq<string>, requestId: string, tooLarge: bool,
                                           broken: set<string>, now: int)
    requires InvAt(s, now)
    ensures InvAt(DeliverAll(s, ids, requestId, tooLarge, broken, now), now)
    decreases |ids|
  {
    if ids != [] {
      DeliverAllKeeps(s, ids[..|ids| - 1], requestId, tooLarge, broken, now);
      DeliverKeeps(DeliverAll(s, ids[..|ids| - 1], requestId, tooLarge, broken, now), ids[|ids| - 1], requestId,
                   tooLarge, broken, now);
    }
  }

  lemma ProxyKeeps(s: State, step: Step)
    requires step.ProxyOAuth? && Enabled(s, step) && InvAt(s, step.now)
    ensures InvAt(NextProxy(s, step), step.now)
  {
    hide Purge, Deliver, DeliverAll, SendAndWait, Sending;
    PurgeKeeps(s, step.now, step.order);
    var p := Purge(s, step.now, step.order);
    var target := OAuthTarget(p, step.oauthState, step.signed, step.now);
    if target.Some? {
      DeliverKeeps(p, target.value, step.requestId, step.tooLarge, step.broken, step.now);
    }
  }

  // ---- sockets, timers, alarm ----------------------------------------------------------

  lemma AnswerKeeps(s: State, requestId: string, o: Outcome, now: int)
    requires InvAt(s, now)
    ensures InvAt(s.(requests := Answer(s.requests, requestId, o)), now)
  {
    AnswerSettles(s.requests, requestId, o);
  }

  lemma TimerKeeps(s: State, promise: nat, now: int)
    requires InvAt(s, now)
    ensures InvAt(s.(requests := TimeOut(s.requests, promise)), now)
  {
    hide Failed, PromisesOf, PendingWithout, Settled, SocketsOk, SocketTags, AnonymousHaveSocket;
    TimerSettles(s.requests, promise);
  }

  lemma QuieterTables(sockets: map<nat, Socket>, quieter: map<nat, Socket>, ignored: set<nat>, rows: map<string, Row>,
                      usedIds: set<string>)
    requires Quieter(sockets, quieter)
    requires SocketTags(sockets, usedIds) && SocketsOk(sockets, ignored, rows)
    requires AnonymousHaveSocket(sockets, ignored, rows)
    ensures SocketTags(quieter, usedIds) && SocketsOk(quieter, ignored, rows)
    ensures AnonymousHaveSocket(quieter, ignored, rows)
  {
    forall id | id in rows ensures HasCurrent(quieter, ignored, id) <==> HasCurrent(sockets, ignored, id) {
      QuieterSees(sockets, quieter, ignored, id);
    }
  }

  /** A socket that stops being OPEN, or reports a ping, leaves everything else as it is. */
  lemma SocketTouched(s: State, socket: nat, updated: Socket, now: int)
    requires InvAt(s, now) && socket in s.sockets
    requires updated.tag == s.sockets[socket].tag && (updated.open ==> s.sockets[socket].open)
    ensures InvAt(s.(sockets := s.sockets[socket := updated]), now)
  {
    var quieter := s.sockets[socket := updated];
    assert Quieter(s.sockets, quieter);
    QuieterTables(s.sockets, quieter, s.ignored, s.rows, s.usedIds);
    ViewsCarryOver(s.indexed, s.alarm, s.scheduledAt, History(s), s.rows, s.rows, s.sockets, quieter, s.ignored);
  }

  lemma AlarmKeeps(s: State, now: int, order: seq<string>)
    requires InvAt(s, now) && Enumerates(order, Removed(s, now))
    ensures InvAt(NextAlarm(s, now, order), now)
  {
    PurgeKeeps(s, now, order);
    var p := Purge(s.(alarm := None), now, order);
    assert p == Purge(s, now, order).(alarm := None);
    ScheduleKeeps(p, now);
    SyncRestores(Schedule(p, now), now);
  }
}
