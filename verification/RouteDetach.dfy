/** A socket leaving: parking, removal, and the late close of a replaced socket. */
module RouteDetach {
  import opened Wrappers
  import opened RouteState
  import opened RouteSteps
  import opened RouteInvariant
  import opened RoutePrimitives
  import opened RouteKeeps

  lemma UnpluggedSees(sockets: map<nat, Socket>, ignored: set<nat>, rows: map<string, Row>, socket: nat, other: string)
    requires socket in sockets && SocketsOk(sockets, ignored, rows)
    ensures var left := sockets - {socket};
      && (HasOpen(left, other) ==> HasOpen(sockets, other))
      && (HasCurrent(left, ignored, other) ==> HasCurrent(sockets, ignored, other))
      && (socket in ignored || other != sockets[socket].tag ==>
            (HasCurrent(left, ignored, other) <==> HasCurrent(sockets, ignored, other)))
      && (socket !in ignored && other == sockets[socket].tag ==> !HasCurrent(left, ignored, other))
  {
    var left := sockets - {socket};
    if w :| w in sockets && sockets[w].tag == other && w !in ignored && w != socket {
      assert w in left && left[w].tag == other;
    }
  }

  lemma UnpluggedSocketsOk(sockets: map<nat, Socket>, ignored: set<nat>, rows: map<string, Row>, usedIds: set<string>,
                           socket: nat)
    requires SocketTags(sockets, usedIds) && SocketsOk(sockets, ignored, rows)
    ensures SocketTags(sockets - {socket}, usedIds) && SocketsOk(sockets - {socket}, ignored, rows)
  {
  }

  /** The late close of a replaced socket only fails the subscriber's requests. */
  lemma IgnoredDetachKeeps(s: State, socket: nat, now: int)
    requires InvAt(s, now) && socket in s.sockets && socket in s.ignored
    ensures InvAt(FailFor(s.(sockets := s.sockets - {socket}), {s.sockets[socket].tag},
                          SubscriberGone("tunnel_disconnected")), now)
  {
    hide CleanupAt, SocketsOk, SocketTags, AnonymousHaveSocket, HasCurrent, HasOpen, Listed;
    var left := s.sockets - {socket};
    var u := s.(sockets := left);
    var ids := {s.sockets[socket].tag};
    FailingSettles(s.requests, ids, SubscriberGone("tunnel_disconnected"));
    UnpluggedSocketsOk(s.sockets, s.ignored, s.rows, s.usedIds, socket);
    IgnoredViews(s.sockets, s.ignored, s.rows, socket, s.indexed, s.alarm, s.scheduledAt, History(s));
  }

  lemma IgnoredViews(sockets: map<nat, Socket>, ignored: set<nat>, rows: map<string, Row>, socket: nat, indexed: bool,
                     alarm: Option<int>, scheduledAt: int, history: seq<Event>)
    requires socket in sockets && socket in ignored
    requires SocketsOk(sockets, ignored, rows) && AnonymousHaveSocket(sockets, ignored, rows)
    requires IndexOk(indexed, rows, sockets) && AlarmOk(alarm, scheduledAt, rows, sockets, ignored)
    requires ReplayOk(history, rows, sockets, ignored)
    ensures var left := sockets - {socket};
      && AnonymousHaveSocket(left, ignored, rows)
      && IndexOk(indexed, rows, left) && AlarmOk(alarm, scheduledAt, rows, left, ignored)
      && ReplayOk(history, rows, left, ignored)
  {
    var left := sockets - {socket};
    forall id
      ensures HasCurrent(left, ignored, id) <==> HasCurrent(sockets, ignored, id)
      ensures IsActive(rows, left, id) ==> IsActive(rows, sockets, id)
      ensures NeedsAlarm(rows, left, ignored, id) ==> NeedsAlarm(rows, sockets, ignored, id)
      ensures InLiveSet(rows, left, ignored, id) <==> InLiveSet(rows, sockets, ignored, id)
    {
      UnpluggedSees(sockets, ignored, rows, socket, id);
    }
  }

  /** The state in which a current socket's subscriber leaves the live set: its requests failed. */
  ghost function Unplugged(s: State, socket: nat, id: string): State {
    FailFor(s.(sockets := s.sockets - {socket}), {id}, SubscriberGone("tunnel_disconnected"))
  }

  /** The event logged when a subscriber's current socket goes. */
  lemma LeavingReplay(history: seq<Event>, e: Event, rows: map<string, Row>, updated: map<string, Row>,
                      sockets: map<nat, Socket>, ignored: set<nat>, socket: nat)
    requires SocketsOk(sockets, ignored, rows) && socket in sockets && socket !in ignored
    requires ReplayOk(history, rows, sockets, ignored)
    requires e.action == Disconnected && e.subscriberId == sockets[socket].tag
    requires forall id :: id != e.subscriberId ==>
      (id in updated <==> id in rows) && (id in rows ==> updated[id].transport == rows[id].transport)
    requires e.subscriberId in updated ==> updated[e.subscriberId].transport == Tunnel
    ensures ReplayOk(history + [e], updated, sockets - {socket}, ignored)
  {
    forall id ensures LastAction(history + [e], id) == Some(Connected) <==>
      InLiveSet(updated, sockets - {socket}, ignored, id) {
      LastActionAppend(history, e, id);
      UnpluggedSees(sockets, ignored, rows, socket, id);
      assert LastAction(history, id) == Some(Connected) <==> InLiveSet(rows, sockets, ignored, id);
    }
  }

  lemma ParkHistory(s: State, socket: nat, reason: Reason, now: int)
    requires InvAt(s, now) && socket in s.sockets && socket !in s.ignored
    requires s.rows[s.sockets[socket].tag].environmentId.Some?
    ensures var id := s.sockets[socket].tag;
      var p := ParkedState(Unplugged(s, socket, id), id, reason, now);
      && HistoryIds(History(p), p.usedIds)
      && ReplayOk(History(p), p.rows, p.sockets, p.ignored)
      && Alternates(History(p))
  {
    var id := s.sockets[socket].tag;
    var p := ParkedState(Unplugged(s, socket, id), id, reason, now);
    var e := Event(Disconnected, reason, id, s.rows[id].environmentId, Tunnel, Some("reverse-tunnel"), None);
    hide SettlementOk, AnonymousHaveSocket, AlarmOk, IndexOk, Failed;
    assert History(p) == History(s) + [e];
    AlternatesAppend(History(s), e);
    LeavingReplay(History(s), e, s.rows, p.rows, s.sockets, s.ignored, socket);
  }

  lemma ParkKeeps(s: State, socket: nat, reason: Reason, now: int)
    requires InvAt(s, now) && socket in s.sockets && socket !in s.ignored
    requires s.rows[s.sockets[socket].tag].environmentId.Some?
    ensures var id := s.sockets[socket].tag;
      var p := ParkedState(Unplugged(s, socket, id), id, reason, now);
      Core(p, now) && RouteIdOk(p)
  {
    hide HistoryIds, ReplayOk, Alternates, History, AlarmOk, IndexOk;
    var id := s.sockets[socket].tag;
    var u := s.(sockets := s.sockets - {socket});
    var p := ParkedState(Unplugged(s, socket, id), id, reason, now);
    ParkHistory(s, socket, reason, now);
    FailingSettles(s.requests, {id}, SubscriberGone("tunnel_disconnected"));
    UnpluggedSocketsOk(s.sockets, s.ignored, s.rows, s.usedIds, socket);
    assert Reshaped(s.rows, p.rows);
    UnpluggedAnonymous(s.sockets, s.ignored, s.rows, socket);
    ReshapedTables(s.rows, p.rows, s.bindings, PendingWithout(s.requests.pending, {id}), u.sockets, s.ignored);
  }

  lemma UnpluggedAnonymous(sockets: map<nat, Socket>, ignored: set<nat>, rows: map<string, Row>, socket: nat)
    requires socket in sockets && socket !in ignored && SocketsOk(sockets, ignored, rows)
    requires AnonymousHaveSocket(sockets, ignored, rows)
    ensures AnonymousHaveSocket(sockets - {socket}, ignored, rows - {sockets[socket].tag})
    ensures rows[sockets[socket].tag].environmentId.Some? ==> AnonymousHaveSocket(sockets - {socket}, ignored, rows)
  {
    forall id | id in rows && id != sockets[socket].tag
      ensures HasCurrent(sockets - {socket}, ignored, id) <==> HasCurrent(sockets, ignored, id)
    {
      UnpluggedSees(sockets, ignored, rows, socket, id);
    }
  }

  lemma LeaveKeeps(s: State, socket: nat, reason: Reason, now: int)
    requires InvAt(s, now) && socket in s.sockets && socket !in s.ignored
    ensures var id := s.sockets[socket].tag;
      var r := RemoveRow(Unplugged(s, socket, id), id, reason);
      Core(r, now) && RouteIdOk(r) && AlarmOk(r.alarm, r.scheduledAt, r.rows, r.sockets, r.ignored)
  {
    var id := s.sockets[socket].tag;
    var u := s.(sockets := s.sockets - {socket});
    var r := RemoveRow(Unplugged(s, socket, id), id, reason);
    var e := Gone(s.rows[id], id, reason);
    assert History(r) == History(s) + [e];
    AlternatesAppend(History(s), e);
    LeavingReplay(History(s), e, s.rows, r.rows, s.sockets, s.ignored, socket);
    FailingSettles(s.requests, {id}, SubscriberGone("tunnel_disconnected"));
    UnpluggedSocketsOk(s.sockets, s.ignored, s.rows, s.usedIds, socket);
    UnpluggedAnonymous(s.sockets, s.ignored, s.rows, socket);
    LeaveAlarm(s.sockets, s.ignored, s.rows, socket, s.alarm, s.scheduledAt);
    assert SocketsOk(r.sockets, r.ignored, r.rows);
  }

  lemma LeaveAlarm(sockets: map<nat, Socket>, ignored: set<nat>, rows: map<string, Row>, socket: nat,
                   alarm: Option<int>, scheduledAt: int)
    requires socket in sockets && SocketsOk(sockets, ignored, rows)
    requires AlarmOk(alarm, scheduledAt, rows, sockets, ignored)
    ensures AlarmOk(alarm, scheduledAt, rows - {sockets[socket].tag}, sockets - {socket}, ignored)
  {
    var left, rest := sockets - {socket}, rows - {sockets[socket].tag};
    forall id | NeedsAlarm(rest, left, ignored, id)
      ensures alarm.Some? && alarm.value <= Later(rest[id].expiresAt, scheduledAt + CLEANUP_MIN_DELAY_MS)
    {
      UnpluggedSees(sockets, ignored, rows, socket, id);
      assert NeedsAlarm(rows, sockets, ignored, id);
    }
  }

  /** The three ways out of `detachSocket`. */
  lemma DetachCases(s: State, now: int, socket: nat, stale: bool)
    requires socket in s.sockets
    requires socket !in s.ignored ==> s.sockets[socket].tag in s.rows
    ensures var id := s.sockets[socket].tag;
      var reason := if stale then StaleTunnel else SocketClosed;
      var u := Unplugged(s, socket, id);
      NextSocketGone(s, now, socket, stale) ==
        if socket in s.ignored then u
        else if s.rows[id].environmentId.Some? then Sync(Schedule(ParkedState(u, id, reason, now), now))
        else Sync(RemoveRow(u, id, reason))
  {
  }

  lemma SocketGoneKeeps(s: State, now: int, socket: nat, stale: bool)
    requires InvAt(s, now) && socket in s.sockets
    ensures InvAt(NextSocketGone(s, now, socket, stale), now)
  {
    DetachCases(s, now, socket, stale);
    var id := s.sockets[socket].tag;
    var reason := if stale then StaleTunnel else SocketClosed;
    if socket in s.ignored {
      IgnoredDetachKeeps(s, socket, now);
    } else if s.rows[id].environmentId.Some? {
      ParkGoneKeeps(s, socket, reason, now);
    } else {
      LeaveKeeps(s, socket, reason, now);
      SyncRestores(RemoveRow(Unplugged(s, socket, id), id, reason), now);
    }
  }

  lemma ParkGoneKeeps(s: State, socket: nat, reason: Reason, now: int)
    requires InvAt(s, now) && socket in s.sockets && socket !in s.ignored
    requires s.rows[s.sockets[socket].tag].environmentId.Some?
    ensures var id := s.sockets[socket].tag;
      InvAt(Sync(Schedule(ParkedState(Unplugged(s, socket, id), id, reason, now), now)), now)
  {
    ParkKeeps(s, socket, reason, now);
    var id := s.sockets[socket].tag;
    var p := ParkedState(Unplugged(s, socket, id), id, reason, now);
    ScheduleKeeps(p, now);
    SyncRestores(Schedule(p, now), now);
  }
}
