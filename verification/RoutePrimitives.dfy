/** How the primitives of the per-route object treat the parts of its invariant. */
module RoutePrimitives {
  import opened Wrappers
  import opened Minimum
  import opened RouteState
  import opened RouteSteps
  import opened RouteInvariant

  // ---- settling requests -----------------------------------------------------

  lemma FailingSettles(r: Requests, ids: set<string>, o: Outcome)
    requires SettlementOk(r)
    ensures SettlementOk(Failed(r, ids, o))
  {
  }

  lemma AnswerSettles(r: Requests, requestId: string, o: Outcome)
    requires SettlementOk(r)
    ensures SettlementOk(Answer(r, requestId, o))
  {
  }

  lemma TimerSettles(r: Requests, promise: nat)
    requires SettlementOk(r)
    ensures SettlementOk(TimeOut(r, promise))
  {
  }

  lemma SettledAtOnce(r: Requests, pending: map<string, Pending>, o: Outcome)
    requires SettlementOk(r)
    requires forall k :: k in pending ==> k in r.pending && pending[k] == r.pending[k]
    ensures SettlementOk(SettledNow(r, pending, o))
  {
  }

  /** A promise left waiting takes over its key in `pending`; whoever held the key keeps a timer. */
  lemma SettledLater(r: Requests, id: string, requestId: string, now: int)
    requires SettlementOk(r)
    ensures SettlementOk(Sent(r, id, requestId, now))
  {
    var t := Sent(r, id, requestId, now);
    forall k | k in t.pending
      ensures t.pending[k].promise in t.timers && t.timers[t.pending[k].promise].requestId == k
    {
      if k != requestId {
        assert r.pending[k].promise in r.timers;
      }
    }
  }

  lemma SendSettles(s: State, id: string, requestId: string, broken: set<string>, now: int)
    requires SettlementOk(s.requests)
    ensures SettlementOk(SendAndWait(s, id, requestId, broken, now).requests)
  {
    SettledAtOnce(s.requests, s.requests.pending, NoSocket);
    SettledAtOnce(s.requests, s.requests.pending - {requestId}, SendFailed);
    SettledLater(s.requests, id, requestId, now);
  }

  // ---- the audit history -----------------------------------------------------

  lemma LastActionAppend(events: seq<Event>, e: Event, id: string)
    ensures LastAction(events + [e], id) ==
      if e.subscriberId == id && e.action != Rejected then Some(e.action) else LastAction(events, id)
  {
    assert (events + [e])[..|events|] == events;
  }

  lemma AlternatesAppend(events: seq<Event>, e: Event)
    requires Alternates(events)
    requires e.action == Connected ==> LastAction(events, e.subscriberId) != Some(Connected)
    ensures Alternates(events + [e])
  {
    var all := events + [e];
    forall i | 0 <= i < |all| && all[i].action == Connected
      ensures LastAction(all[..i], all[i].subscriberId) != Some(Connected)
    {
      assert all[..i] == events[..i];
      if i == |events| {
        assert events[..i] == events;
      }
    }
  }

  lemma RemovalEventsStep(rows: map<string, Row>, order: seq<string>, now: int)
    requires order != []
    ensures var last := order[|order| - 1];
      var events := RemovalEvents(rows, order, now);
      && events == RemovalEvents(rows, order[..|order| - 1], now) + [events[|order| - 1]]
      && events[|order| - 1].subscriberId == last
      && events[|order| - 1].action == Disconnected
  {
  }

  lemma {:induction false} RemovalReplay(events: seq<Event>, rows: map<string, Row>, order: seq<string>, now: int,
                                         id: string)
    ensures LastAction(events + RemovalEvents(rows, order, now), id) ==
      if id in order then Some(Disconnected) else LastAction(events, id)
    decreases |order|
  {
    if order == [] {
      assert events + RemovalEvents(rows, order, now) == events;
    } else {
      var front := order[..|order| - 1];
      var e := RemovalEvents(rows, order, now)[|order| - 1];
      RemovalEventsStep(rows, order, now);
      RemovalReplay(events, rows, front, now, id);
      LastActionAppend(events + RemovalEvents(rows, front, now), e, id);
      assert events + RemovalEvents(rows, order, now) == (events + RemovalEvents(rows, front, now)) + [e];
      assert order == front + [order[|order| - 1]];
    }
  }

  lemma {:induction false} RemovalAlternates(events: seq<Event>, rows: map<string, Row>, order: seq<string>, now: int)
    requires Alternates(events)
    ensures Alternates(events + RemovalEvents(rows, order, now))
    decreases |order|
  {
    if order == [] {
      assert events + RemovalEvents(rows, order, now) == events;
    } else {
      var front := order[..|order| - 1];
      var e := RemovalEvents(rows, order, now)[|order| - 1];
      RemovalEventsStep(rows, order, now);
      RemovalAlternates(events, rows, front, now);
      AlternatesAppend(events + RemovalEvents(rows, front, now), e);
      assert events + RemovalEvents(rows, order, now) == (events + RemovalEvents(rows, front, now)) + [e];
    }
  }

  // ---- the alarm ---------------------------------------------------------------

  /** After `scheduleCleanup` every row is covered. */
  lemma ScheduleCovers(rows: map<string, Row>, now: int, id: string)
    requires id in rows && forall i :: i in rows ==> rows[i].expiresAt > 0
    ensures CleanupAt(rows, now).Some?
    ensures CleanupAt(rows, now).value <= Later(rows[id].expiresAt, now + CLEANUP_MIN_DELAY_MS)
  {
    assert rows != map[];
    var some :| some in rows;
    assert rows[some].expiresAt in Expiries(rows);
    assert rows[id].expiresAt in Expiries(rows);
    var first := MinOf(Expiries(rows));
    assert FirstExpiry(rows) == Some(first);
    var who :| who in rows && rows[who].expiresAt == first;
  }

  lemma ScheduleKeepsAlarm(s: State, now: int, usedIds: set<string>)
    requires RowsOk(s.rows, usedIds, now)
    ensures var t := Schedule(s, now);
      AlarmOk(t.alarm, t.scheduledAt, t.rows, t.sockets, t.ignored)
  {
    forall id | NeedsAlarm(s.rows, s.sockets, s.ignored, id)
      ensures CleanupAt(s.rows, now).Some?
      ensures CleanupAt(s.rows, now).value <= Later(s.rows[id].expiresAt, now + CLEANUP_MIN_DELAY_MS)
    {
      ScheduleCovers(s.rows, now, id);
    }
  }

  // ---- purging -----------------------------------------------------------------

  lemma StaleKeepsTags(sockets: map<nat, Socket>, ignored: set<nat>, rows: map<string, Row>, now: int, id: string)
    ensures var c := StaleClosed(sockets, rows, now);
      && (HasCurrent(c, ignored, id) <==> HasCurrent(sockets, ignored, id))
      && (Listed(c, id) <==> Listed(sockets, id))
      && (HasOpen(c, id) ==> HasOpen(sockets, id))
  {
    var c := StaleClosed(sockets, rows, now);
    if w :| w in sockets && sockets[w].tag == id && w !in ignored {
      assert c[w].tag == id;
    }
    if w :| w in sockets && sockets[w].tag == id {
      assert c[w].tag == id;
    }
    if w :| w in c && c[w].tag == id && c[w].open {
      assert sockets[w].tag == id && sockets[w].open;
    }
  }

  lemma PurgeRows(s: State, now: int)
    requires RowsOk(s.rows, s.usedIds, now) && EnvironmentsUnique(s.rows)
    ensures RowsOk(KeptRows(s, now), s.usedIds, now) && EnvironmentsUnique(KeptRows(s, now))
  {
  }

  lemma PurgeReferences(s: State, now: int)
    requires PendingOk(s.requests.pending, s.rows)
    ensures BindingsOk(KeptBindings(s, now), KeptRows(s, now))
    ensures PendingOk(PendingWithout(s.requests.pending, Removed(s, now)), KeptRows(s, now))
  {
  }

  lemma PurgeSockets(s: State, now: int)
    requires InvAt(s, now)
    ensures var rows := KeptRows(s, now);
      var sockets := StaleClosed(s.sockets, rows, now);
      && SocketTags(sockets, s.usedIds)
      && SocketsOk(sockets, s.ignored, rows)
      && AnonymousHaveSocket(sockets, s.ignored, rows)
      && IndexOk(s.indexed, rows, sockets)
      && AlarmOk(s.alarm, s.scheduledAt, rows, sockets, s.ignored)
  {
    hide Removed, ReplayOk, SettlementOk, Alternates, HistoryIds;
    PurgeKeepsSockets(s, now);
    hide SocketsOk, SocketTags, AnonymousHaveSocket;
    PurgeKeepsViews(s, now);
  }

  lemma CurrentRowsAreKept(s: State, now: int, w: nat)
    requires SocketsOk(s.sockets, s.ignored, s.rows) && w in s.sockets && w !in s.ignored
    ensures s.sockets[w].tag in KeptRows(s, now) && KeptRows(s, now)[s.sockets[w].tag].transport == Tunnel
  {
    assert Listed(s.sockets, s.sockets[w].tag);
  }

  lemma PurgeKeepsSockets(s: State, now: int)
    requires SocketTags(s.sockets, s.usedIds) && SocketsOk(s.sockets, s.ignored, s.rows)
    requires AnonymousHaveSocket(s.sockets, s.ignored, s.rows)
    ensures var rows := KeptRows(s, now);
      var sockets := StaleClosed(s.sockets, rows, now);
      && SocketTags(sockets, s.usedIds)
      && SocketsOk(sockets, s.ignored, rows)
      && AnonymousHaveSocket(sockets, s.ignored, rows)
  {
    var rows := KeptRows(s, now);
    var sockets := StaleClosed(s.sockets, rows, now);
    forall w | w in s.sockets && w !in s.ignored
      ensures s.sockets[w].tag in rows && rows[s.sockets[w].tag].transport == Tunnel
    {
      CurrentRowsAreKept(s, now, w);
    }
    forall id | id in rows && rows[id].transport == Tunnel && rows[id].environmentId.None?
      ensures HasCurrent(sockets, s.ignored, id)
    {
      StaleKeepsTags(s.sockets, s.ignored, rows, now, id);
    }
  }

  lemma PurgeKeepsViews(s: State, now: int)
    requires IndexOk(s.indexed, s.rows, s.sockets) && AlarmOk(s.alarm, s.scheduledAt, s.rows, s.sockets, s.ignored)
    ensures var rows := KeptRows(s, now);
      var sockets := StaleClosed(s.sockets, rows, now);
      IndexOk(s.indexed, rows, sockets) && AlarmOk(s.alarm, s.scheduledAt, rows, sockets, s.ignored)
  {
    var rows := KeptRows(s, now);
    var sockets := StaleClosed(s.sockets, rows, now);
    forall id | id in rows
      ensures IsActive(rows, sockets, id) ==> IsActive(s.rows, s.sockets, id)
      ensures NeedsAlarm(rows, sockets, s.ignored, id) ==> NeedsAlarm(s.rows, s.sockets, s.ignored, id)
    {
      StaleKeepsTags(s.sockets, s.ignored, rows, now, id);
    }
  }

  lemma PurgeHistory(s: State, now: int, order: seq<string>)
    requires InvAt(s, now) && Enumerates(order, Removed(s, now))
    ensures var p := Purge(s, now, order);
      && HistoryIds(History(p), p.usedIds)
      && ReplayOk(History(p), p.rows, p.sockets, p.ignored)
      && Alternates(History(p))
  {
    var p := Purge(s, now, order);
    var events := RemovalEvents(s.rows, order, now);
    assert History(p) == History(s) + events;
    RemovalAlternates(History(s), s.rows, order, now);
    forall e | e in events ensures e.subscriberId in s.usedIds {
      var i :| 0 <= i < |events| && events[i] == e;
      assert order[i] in order;
    }
    forall id ensures LastAction(History(p), id) == Some(Connected) <==> InLiveSet(p.rows, p.sockets, p.ignored, id) {
      RemovalReplay(History(s), s.rows, order, now, id);
      StaleKeepsTags(s.sockets, s.ignored, p.rows, now, id);
      assert id in order <==> id in Removed(s, now);
    }
  }

  /** `purgeExpired` keeps the whole invariant. */
  lemma PurgeKeeps(s: State, now: int, order: seq<string>)
    requires InvAt(s, now) && Enumerates(order, Removed(s, now))
    ensures InvAt(Purge(s, now, order), now)
  {
    PurgeRows(s, now);
    PurgeReferences(s, now);
    PurgeSockets(s, now);
    PurgeHistory(s, now, order);
    FailingSettles(s.requests, Removed(s, now), SubscriberGone("tunnel_disconnected"));
  }

  /** What a purge leaves alone. */
  lemma PurgeFrame(s: State, now: int, order: seq<string>)
    ensures var p := Purge(s, now, order);
      && p.name == s.name && p.routeId == s.routeId && p.usedIds == s.usedIds && p.ignored == s.ignored
      && p.sockets.Keys == s.sockets.Keys && p.clock == s.clock
  {
  }

  lemma PurgeTables(s: State, now: int, order: seq<string>)
    ensures var p := Purge(s, now, order);
      p.rows == KeptRows(s, now) && p.bindings == KeptBindings(s, now)
  {
  }

  lemma DroppedFrame(s: State, id: string)
    ensures var d := Dropped(s, id);
      d.name == s.name && d.routeId == s.routeId && d.clock == s.clock
  {
  }

  /** What an accepted join leaves alone. */
  lemma AttachFrame(s: State, j: Join, draw: Draw, now: int)
    ensures var a := Attach(s, j, draw, now);
      && a.name == s.name && a.routeId == s.routeId && a.sockets.Keys == s.sockets.Keys && a.clock == s.clock
  {
  }

  /** Some order of the elements of a finite set. */
  ghost function Arbitrary(ids: set<string>): (order: seq<string>)
    ensures Enumerates(order, ids)
    decreases ids
  {
    if ids == {} then [] else var id :| id in ids; Arbitrary(ids - {id}) + [id]
  }
}
