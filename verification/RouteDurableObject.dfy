/**
 The per-route Durable Object, updating its tables and memory in place
 (src/durable-object.ts). Every method is proved against the state functions of
 RouteState and RouteSteps; the handlers are exactly the steps of a run.
 */
module RouteDurableObjectModule {
  import opened Wrappers
  import opened Minimum
  import opened RouteState
  import opened RouteSteps
  import opened RouteInvariant
  import opened RoutePrimitives
  import opened RouteKeeps
  import opened RouteReachable
  import opened RouteSweep
  import opened RouteCarry
  import opened RouteRuns
  import opened RouteRowLaws
  import opened RouteFanout
  import opened RouterIndexModule
  import opened TunnelProtocol
  import opened RouteGuarantees
  import WebhookPathFilter
  import RouteId
  import OAuthState

  /** What a join is answered with. */
  datatype JoinResponse =
    | BadEnvironmentId
    | EnvironmentTaken
    | Welcome(subscriberId: string, forwardToken: string, connectionToken: string)

  /** `upgrade.toLowerCase() === "websocket"`, over ASCII. */
  predicate AsksForWebSocket(upgrade: Option<string>) {
    upgrade.Some? && |upgrade.value| == |"websocket"| &&
    forall i :: 0 <= i < |upgrade.value| ==>
      upgrade.value[i] == "websocket"[i] || upgrade.value[i] as int + 32 == "websocket"[i] as int
  }

  /** What an upgrade request is answered with: 426, 400, an exception, or what the join says. */
  datatype UpgradeAnswer =
    | ExpectedWebSocket
    | InvalidTunnelPath
    | Throws
    | Joins(response: JoinResponse, protocol: Option<string>)

  /** The header may come in any case. */
  lemma AsksInAnyCase(upgrade: string)
    ensures AsksForWebSocket(Some(upgrade)) <==> OAuthState.EqualsIgnoringCase(upgrade, "websocket")
  {
    assert forall i :: 0 <= i < |"websocket"| ==> 'a' <= "websocket"[i] <= 'z';
  }

  class RouteDurableObject {
    const name: string
    const index: RouterIndex
    var routeId: Option<string>
    var subscribers: map<string, Row>
    var oauthBindings: map<string, Binding>
    var sockets: map<nat, Socket>
    var ignoreDisconnectLog: set<nat>
    var pending: map<string, Pending>
    var timers: map<nat, Timer>
    var nextPromise: nat
    var pendingConnectionLog: seq<Event>
    var alarm: Option<int>
    ghost var outcomes: map<nat, seq<Outcome>>
    ghost var flushed: seq<Event>
    ghost var scheduledAt: int
    ghost var clock: int
    ghost var usedIds: set<string>

    ghost function St(): State
      reads this, index
    {
      State(name, routeId, subscribers, oauthBindings, sockets, ignoreDisconnectLog,
            Requests(pending, timers, outcomes, nextPromise), pendingConnectionLog, flushed,
            name in index.routes, alarm, scheduledAt, clock, usedIds)
    }

    constructor (name: string, index: RouterIndex)
      requires RouteId.IsAllowedRouteId(name)
      ensures Initial(St()) && Inv(St())
      ensures this.name == name && this.index == index
    {
      this.name := name;
      this.index := index;
      routeId, subscribers, oauthBindings, sockets, ignoreDisconnectLog := None, map[], map[], map[], {};
      pending, timers, nextPromise, pendingConnectionLog, alarm := map[], map[], 0, [], None;
      outcomes, flushed, scheduledAt, clock, usedIds := map[], [], 0, 0, {};
      new;
      InitialHolds(St());
    }

    // ---- requests --------------------------------------------------------------

    ghost function Reqs(): Requests
      reads this
    {
      Requests(pending, timers, outcomes, nextPromise)
    }

    /** Clear a pending entry's timer, delete the entry, settle its promise. */
    method SettleEntry(requestId: string, ghost outcome: Outcome)
      requires requestId in pending
      modifies this`pending, this`timers, this`outcomes
      ensures Reqs() == Answer(old(Reqs()), requestId, outcome)
    {
      var p := pending[requestId].promise;
      timers := timers - {p};
      pending := pending - {requestId};
      outcomes := Settled(outcomes, {p}, outcome);
    }

    /** Reject every pending request of a subscriber, deleting from the map while iterating over it. */
    method FailPendingForSubscriber(subscriberId: string, ghost cause: Outcome)
      requires SettlementOk(Reqs())
      modifies this`pending, this`timers, this`outcomes
      ensures St() == FailFor(old(St()), {subscriberId}, cause)
    {
      hide PartlyFailed, SettlementOk, Answer, Failed;
      ghost var r := Reqs();
      var left := pending.Keys;
      ghost var visited: set<string> := {};
      NothingVisited(r, subscriberId, cause);
      while left != {}
        invariant left !! visited && left + visited == r.pending.Keys
        invariant Reqs() == PartlyFailed(r, visited, subscriberId, cause)
        decreases left
      {
        var id :| id in left;
        VisitStep(r, visited, id, subscriberId, cause);
        if pending[id].subscriberId == subscriberId {
          SettleEntry(id, cause);
        }
        left := left - {id};
        visited := visited + {id};
      }
      assert visited == r.pending.Keys;
      AllVisited(r, subscriberId, cause);
    }

    /** Close and ignore every listed socket of a subscriber. */
    method CloseSockets(subscriberId: string)
      modifies this`sockets, this`ignoreDisconnectLog
      ensures St() == RouteState.CloseSockets(old(St()), subscriberId)
    {
      ghost var before := sockets;
      ghost var quiet := ignoreDisconnectLog;
      var left := set w | w in sockets && sockets[w].tag == subscriberId;
      ghost var closed: set<nat> := {};
      ghost var all := TagSet(before, subscriberId);
      assert left == all && sockets == ClosedSome(before, closed);
      while left != {}
        invariant left !! closed && left + closed == all
        invariant sockets == ClosedSome(before, closed)
        invariant ignoreDisconnectLog == quiet + closed
        decreases left
      {
        var w :| w in left;
        CloseOne(before, closed, w);
        hide ClosedSome;
        ignoreDisconnectLog := ignoreDisconnectLog + {w};
        sockets := sockets[w := sockets[w].(open := false)];
        left := left - {w};
        closed := closed + {w};
      }
      assert closed == all;
      assert sockets == ClosedFor(before, subscriberId);
    }

    /** The sockets with some of them closed. */
    static ghost function ClosedSome(sockets: map<nat, Socket>, closed: set<nat>): map<nat, Socket> {
      map w | w in sockets :: if w in closed then sockets[w].(open := false) else sockets[w]
    }

    static lemma CloseOne(sockets: map<nat, Socket>, closed: set<nat>, w: nat)
      requires w in sockets && w !in closed
      ensures w in ClosedSome(sockets, closed)
      ensures ClosedSome(sockets, closed + {w})
           == ClosedSome(sockets, closed)[w := ClosedSome(sockets, closed)[w].(open := false)]
    {
    }

    // ---- rows ------------------------------------------------------------------

    method QueueConnectionLog(event: Event)
      modifies this`pendingConnectionLog
      ensures pendingConnectionLog == old(pendingConnectionLog) + [event]
    {
      pendingConnectionLog := pendingConnectionLog + [event];
    }

    method RemoveSubscriberRow(subscriberId: string, reason: Reason)
      modifies this`pendingConnectionLog, this`subscribers, this`oauthBindings
      ensures St() == RemoveRow(old(St()), subscriberId, reason)
    {
      if subscriberId !in subscribers {
        return;
      }
      QueueConnectionLog(Gone(subscribers[subscriberId], subscriberId, reason));
      subscribers := subscribers - {subscriberId};
      oauthBindings :=
        map st | st in oauthBindings && oauthBindings[st].subscriberId != subscriberId :: oauthBindings[st];
      assert oauthBindings == BindingsWithout(old(oauthBindings), {subscriberId});
    }

    method ExtendSubscriber(subscriberId: string, now: int)
      modifies this`subscribers
      ensures St() == Extend(old(St()), subscriberId, now)
    {
      if subscriberId in subscribers {
        subscribers := subscribers[subscriberId := Renewed(subscribers[subscriberId], now)];
      }
    }

    // ---- purging ---------------------------------------------------------------

    predicate IsListed(subscriberId: string)
      reads this`sockets
      ensures IsListed(subscriberId) <==> Listed(sockets, subscriberId)
    {
      exists w :: w in sockets && sockets[w].tag == subscriberId
    }

    predicate IsOpen(subscriberId: string)
      reads this`sockets
      ensures IsOpen(subscriberId) <==> HasOpen(sockets, subscriberId)
    {
      exists w :: w in sockets && sockets[w].tag == subscriberId && sockets[w].open
    }

    /** First loop of `purgeExpired`: expired public rows go. */
    method RemoveExpiredPublic(now: int) returns (ghost gone: seq<string>)
      requires SettlementOk(Reqs()) && PendingOk(pending, subscribers)
      modifies this`pendingConnectionLog, this`subscribers, this`oauthBindings
      ensures Enumerates(gone, ExpiredPublic(old(St()), now))
      ensures St() == Swept(old(St()), now, gone, {})
    {
      hide RemoveRow, Swept, SettlementOk, PendingOk, Enumerates;
      ghost var s := St();
      gone := [];
      NothingSwept(s, now);
      EnumeratesNothing();
      var left := set id | id in subscribers && subscribers[id].transport == Public && subscribers[id].expiresAt <= now;
      ghost var going := ExpiredPublic(s, now);
      assert left == going && going - left == {};
      while left != {}
        invariant left <= going
        invariant Enumerates(gone, going - left)
        invariant St() == Swept(s, now, gone, {})
        decreases left
      {
        var id :| id in left;
        EnumeratesSnoc(gone, going - left, id);
        OneLess(going, {}, left, id);
        SweepPublicStep(s, now, gone, {}, id);
        RemoveSubscriberRow(id, Expired);
        left := left - {id};
        gone := gone + [id];
      }
      assert going - left == going;
    }

    /** Second loop: expired tunnel rows are renewed while a socket is listed, and go otherwise. */
    method RemoveExpiredTunnels(now: int) returns (ghost gone: seq<string>)
      requires SettlementOk(Reqs())
      modifies this`pendingConnectionLog, this`subscribers, this`oauthBindings, this`pending, this`timers, this`outcomes
      ensures Enumerates(gone, ExpiredUnlisted(old(St()), now))
      ensures St() == Swept(old(St()), now, gone, ListedExpired(old(St()), now))
      ensures SettlementOk(Reqs())
    {
      hide Swept, SettlementOk, Enumerates, Listed;
      ghost var s := St();
      gone := [];
      NothingSwept(s, now);
      EnumeratesNothing();
      var left := set id | id in subscribers && subscribers[id].transport == Tunnel && subscribers[id].expiresAt <= now;
      ghost var going, staying := ExpiredUnlisted(s, now), ListedExpired(s, now);
      assert left == going + staying;
      hide ExpiredUnlisted, ListedExpired;
      assert going - left == {} && staying - left == {};
      while left != {}
        invariant left <= going + staying
        invariant Enumerates(gone, going - left)
        invariant St() == Swept(s, now, gone, staying - left) && sockets == s.sockets && SettlementOk(Reqs())
        decreases left
      {
        var id :| id in left;
        EnumeratesSnoc(gone, going - left, id);
        ExpiredByListing(s, now, id);
        var kept := ExpireTunnel(id, now, s, gone, staying - left);
        OneLess(going, staying, left, id);
        left := left - {id};
        if !kept {
          gone := gone + [id];
        }
      }
      assert going - left == going && staying - left == staying;
    }

    /** One expired tunnel of the loop, with `s` the table before it, `gone` and `renewed` its progress. */
    method ExpireTunnel(id: string, now: int, ghost s: State, ghost gone: seq<string>, ghost renewed: set<string>)
      returns (kept: bool)
      requires SettlementOk(Reqs()) && SettlementOk(s.requests)
      requires St() == Swept(s, now, gone, renewed) && sockets == s.sockets
      requires id in s.rows && s.rows[id].expiresAt <= now && id !in gone && id !in renewed
      modifies this`pendingConnectionLog, this`subscribers, this`oauthBindings, this`pending, this`timers, this`outcomes
      ensures kept <==> Listed(sockets, id)
      ensures St() == if kept then Swept(s, now, gone, renewed + {id}) else Swept(s, now, gone + [id], renewed)
      ensures SettlementOk(Reqs())
    {
      hide RemoveRow, Extend, FailFor, Swept, SettlementOk;
      kept := IsListed(id);
      if kept {
        RenewStep(s, now, gone, renewed, id);
        ExtendSubscriber(id, now);
      } else {
        SweepStep(s, now, gone, renewed, id);
        FailingSettles(Reqs(), {id}, GONE);
        DropTunnel(id, Expired);
      }
    }

    static lemma ExpiredByListing(s: State, now: int, id: string)
      requires id in ExpiredUnlisted(s, now) + ListedExpired(s, now)
      ensures id in s.rows && s.rows[id].expiresAt <= now
      ensures id in ListedExpired(s, now) <==> Listed(s.sockets, id)
      ensures id in ExpiredUnlisted(s, now) <==> !Listed(s.sockets, id)
    {
    }

    static lemma OneLess(going: set<string>, staying: set<string>, left: set<string>, id: string)
      requires id in left
      ensures staying - (left - {id}) == if id in staying then staying - left + {id} else staying - left
      ensures going - (left - {id}) == if id in going then going - left + {id} else going - left
    {
    }

    static lemma EnumeratesNothing()
      ensures Enumerates([], {})
    {
    }

    /** Fail a socketless tunnel's requests and remove its row. */
    method DropTunnel(subscriberId: string, reason: Reason)
      requires SettlementOk(Reqs())
      modifies this`pendingConnectionLog, this`subscribers, this`oauthBindings, this`pending, this`timers, this`outcomes
      ensures St() == RemoveRow(FailFor(old(St()), {subscriberId}, GONE), subscriberId, reason)
      ensures Reqs() == Failed(old(Reqs()), {subscriberId}, GONE)
    {
      FailPendingForSubscriber(subscriberId, GONE);
      RemoveSubscriberRow(subscriberId, reason);
    }

    /** Anonymous tunnels without a socket go. */
    method PurgeDisconnectedTunnels(ghost now: int) returns (ghost gone: seq<string>)
      requires SettlementOk(Reqs())
      requires forall id :: id in AnonymousUnlisted(St()) ==> subscribers[id].expiresAt > now
      modifies this`pendingConnectionLog, this`subscribers, this`oauthBindings, this`pending, this`timers, this`outcomes
      ensures Enumerates(gone, AnonymousUnlisted(old(St())))
      ensures St() == Swept(old(St()), now, gone, {})
    {
      hide Swept, SettlementOk, Enumerates, SweptRows, Listed;
      ghost var s := St();
      gone := [];
      NothingSwept(s, now);
      EnumeratesNothing();
      var left := set id | id in subscribers && subscribers[id].transport == Tunnel;
      ghost var going := AnonymousUnlisted(s);
      assert going <= left && left <= s.rows.Keys && going - left == {};
      while left != {}
        invariant left <= s.rows.Keys && Enumerates(gone, going - left)
        invariant forall id :: id in left ==>
          id in subscribers && subscribers[id] == s.rows[id] && s.rows[id].transport == Tunnel
        invariant St() == Swept(s, now, gone, {}) && sockets == s.sockets && SettlementOk(Reqs())
        decreases left
      {
        var id :| id in left;
        AnonymousByListing(s, now, id);
        EnumeratesSnoc(gone, going - left, id);
        OneLess(going, {}, left, id);
        var kept := DropIfAnonymous(id, now, s, gone);
        left := left - {id};
        if !kept {
          gone := gone + [id];
          ElementsOf(gone, going - left);
          SweptRowsAre(s, now, gone, {});
          SweptRowsStay(s.rows, now, going - left, {}, left);
        }
      }
      assert going - left == going;
    }

    /** One tunnel of the loop, with `s` the table before it and `gone` its progress. */
    method DropIfAnonymous(id: string, ghost now: int, ghost s: State, ghost gone: seq<string>) returns (kept: bool)
      requires SettlementOk(Reqs()) && SettlementOk(s.requests)
      requires St() == Swept(s, now, gone, {}) && sockets == s.sockets
      requires id in subscribers && id in s.rows && subscribers[id] == s.rows[id] && id !in gone
      requires s.rows[id].environmentId.None? && !Listed(s.sockets, id) ==> s.rows[id].expiresAt > now
      modifies this`pendingConnectionLog, this`subscribers, this`oauthBindings, this`pending, this`timers, this`outcomes
      ensures kept <==> Listed(s.sockets, id) || s.rows[id].environmentId.Some?
      ensures St() == if kept then old(St()) else Swept(s, now, gone + [id], {})
      ensures SettlementOk(Reqs())
    {
      hide RemoveRow, FailFor, Swept, SettlementOk;
      kept := IsListed(id) || subscribers[id].environmentId.Some?;
      if !kept {
        SweepStep(s, now, gone, {}, id);
        FailingSettles(Reqs(), {id}, GONE);
        DropTunnel(id, SocketClosed);
      }
    }

    static lemma AnonymousByListing(s: State, now: int, id: string)
      requires id in s.rows && s.rows[id].transport == Tunnel
      ensures id in AnonymousUnlisted(s) <==> !Listed(s.sockets, id) && s.rows[id].environmentId.None?
    {
    }

    static lemma SweptRowsAre(s: State, now: int, gone: seq<string>, renewed: set<string>)
      ensures Swept(s, now, gone, renewed).rows == SweptRows(s.rows, now, Elements(gone), renewed)
    {
    }

    /** The first OPEN socket of a subscriber. */
    method LiveSocket(subscriberId: string) returns (socket: Option<nat>)
      ensures socket.None? <==> !HasOpen(sockets, subscriberId)
      ensures socket.Some? ==>
        socket.value in sockets && sockets[socket.value].tag == subscriberId && sockets[socket.value].open
    {
      if w :| w in sockets && sockets[w].tag == subscriberId && sockets[w].open {
        return Some(w);
      }
      return None;
    }

    /** Close the OPEN socket of every tunnel that has been silent for too long. */
    method ExpireStaleTunnels(now: int)
      requires SocketsOk(sockets, ignoreDisconnectLog, subscribers)
      modifies this`sockets
      ensures St() == old(St()).(sockets := StaleClosed(old(sockets), subscribers, now))
    {
      hide PartlyClosed, SocketsOk;
      ghost var before := sockets;
      var left := set id | id in subscribers && subscribers[id].transport == Tunnel;
      ghost var visited: set<string> := {};
      NoneClosed(before, subscribers, now);
      while left != {}
        invariant left !! visited
        invariant forall id :: id in left ==> id in subscribers && subscribers[id].transport == Tunnel
        invariant forall id :: id in subscribers && subscribers[id].transport == Tunnel ==> id in left || id in visited
        invariant sockets == PartlyClosed(before, subscribers, now, visited)
        decreases left
      {
        var id :| id in left;
        UnvisitedUntouched(before, subscribers, now, visited, id);
        var ws := LiveSocket(id);
        if ws.Some? {
          OneOpen(before, ignoreDisconnectLog, subscribers, ws.value);
        }
        if ws.Some? && now - LastSeen(subscribers[id], sockets[ws.value]) > TUNNEL_STALE_MS {
          VisitStale(before, subscribers, now, visited, id, ws.value);
          sockets := sockets[ws.value := sockets[ws.value].(open := false)];
        } else {
          forall w | w in before && before[w].tag == id ensures !IsStale(subscribers, before[w], now) {
            assert sockets[w] == before[w];
          }
          VisitQuiet(before, subscribers, now, visited, id);
        }
        left := left - {id};
        visited := visited + {id};
      }
      AllClosed(before, subscribers, now, visited);
    }

    method DeleteExpiredBindings(now: int)
      modifies this`oauthBindings
      ensures St() == old(St()).(bindings := Unexpired(old(oauthBindings), now))
    {
      oauthBindings := map st | st in oauthBindings && oauthBindings[st].expiresAt > now :: oauthBindings[st];
    }

    /** The whole purge is one filter over the tables. */
    method PurgeExpired(now: int) returns (ghost order: seq<string>)
      requires InvAt(St(), now)
      modifies this`pendingConnectionLog, this`subscribers, this`oauthBindings, this`pending, this`timers,
               this`outcomes, this`sockets
      ensures Enumerates(order, Removed(old(St()), now))
      ensures St() == Purge(old(St()), now, order)
    {
      hide Swept, Purge, SettlementOk, Enumerates, Unexpired;
      ghost var s := St();
      ghost var o1 := RemoveExpiredPublic(now);
      ghost var s1 := St();
      SweptSettles(s, now, o1, {});
      ghost var o2 := RemoveExpiredTunnels(now);
      SweptSoFar(s, s1, St(), now, o1, o2);
      ghost var o12 := o1 + o2;
      ListedAreTunnels(s, now);
      EnumeratesJoined(o1, o2, ExpiredPublic(s, now), ExpiredUnlisted(s, now));
      UnexpiredCommutes(s, now, o12, ListedExpired(s, now));
      DeleteExpiredBindings(now);
      ghost var s3 := St();
      AnonymousAreFresh(s, s3, now, o12);
      ghost var o3 := PurgeDisconnectedTunnels(now);
      order := o12 + o3;
      SweptToTheEnd(s, s3, St(), now, o12, o3);
      SweepIsPurge(s, now, order);
      SweptSocketsOk(s, now, order);
      SweptRowsAre(s.(bindings := Unexpired(s.bindings, now)), now, order, ListedExpired(s, now));
      ExpireStaleTunnels(now);
    }

    static lemma SweptSettles(s: State, now: int, order: seq<string>, renewed: set<string>)
      requires SettlementOk(s.requests)
      ensures SettlementOk(Swept(s, now, order, renewed).requests)
    {
      FailingSettles(s.requests, Elements(order), GONE);
    }

    // ---- audit log, index, alarm ---------------------------------------------------

    method FlushConnectionLog()
      modifies this`pendingConnectionLog, this`flushed
      ensures St() == Flush(old(St()))
    {
      if |pendingConnectionLog| == 0 {
        assert flushed + pendingConnectionLog == flushed;
        return;
      }
      flushed := flushed + pendingConnectionLog;
      pendingConnectionLog := [];
    }

    method SyncIndex(now: int)
      requires RouteId.IsAllowedRouteId(name) && (routeId.Some? ==> routeId.value == name)
      modifies this`pendingConnectionLog, this`flushed, index
      ensures St() == Sync(old(St()))
      ensures SameElsewhere(old(index.routes), index.routes, name)
    {
      FlushConnectionLog();
      if routeId.None? {
        return;
      }
      if subscribers == map[] {
        index.RemoveRoute(name);
        return;
      }
      index.AddRoute(name, now);
    }

    /** Arm the alarm for the first expiry, or for the tunnel probe. */
    method ScheduleCleanup(now: int)
      modifies this`alarm, this`scheduledAt
      ensures St() == Schedule(old(St()), now)
    {
      var next: Option<int> := None;
      if subscribers != map[] {
        FirstRow(subscribers);
        var id :| id in subscribers && forall other :: other in subscribers ==>
          subscribers[id].expiresAt <= subscribers[other].expiresAt;
        next := Some(subscribers[id].expiresAt);
        FirstRowIsMinimum(subscribers, id);
      }
      var probe: Option<int> := None;
      if exists id :: id in subscribers && subscribers[id].transport == Tunnel {
        probe := Some(now + CLEANUP_PROBE_MS);
      }
      var soonest := Earlier(Positive(next), Positive(probe));
      alarm := if soonest.None? then None
               else if soonest.value < now + CLEANUP_MIN_DELAY_MS then Some(now + CLEANUP_MIN_DELAY_MS) else soonest;
      scheduledAt := now;
    }

    static lemma FirstRow(rows: map<string, Row>)
      requires rows != map[]
      ensures exists id :: id in rows && forall other :: other in rows ==> rows[id].expiresAt <= rows[other].expiresAt
    {
      var some :| some in rows;
      assert rows[some].expiresAt in Expiries(rows);
      var first := MinOf(Expiries(rows));
      var id :| id in rows && rows[id].expiresAt == first;
      assert forall other :: other in rows ==> rows[other].expiresAt in Expiries(rows);
    }

    static lemma FirstRowIsMinimum(rows: map<string, Row>, id: string)
      requires id in rows && forall other :: other in rows ==> rows[id].expiresAt <= rows[other].expiresAt
      ensures FirstExpiry(rows) == Some(rows[id].expiresAt)
    {
      assert rows != map[];
      assert rows[id].expiresAt in Expiries(rows);
      var first := MinOf(Expiries(rows));
      var who :| who in rows && rows[who].expiresAt == first;
    }

    // ---- joining -------------------------------------------------------------------

    method ReclaimOrCreate(j: Join, draw: Draw, now: int)
      returns (accepted: bool, subscriberId: string, forwardToken: string)
      requires InvAt(St(), now) && FreshDraw(St(), draw)
      modifies this`pendingConnectionLog, this`subscribers, this`pending, this`timers, this`outcomes, this`sockets,
               this`ignoreDisconnectLog, this`usedIds
      ensures accepted <==> !IsRejected(old(St()), j)
      ensures !accepted ==> St() == RejectJoin(old(St()), j)
      ensures accepted ==>
        && St() == Attach(old(St()), j, draw, now)
        && subscriberId == JoinedId(old(St()), j, draw)
        && subscriberId in subscribers && forwardToken == subscribers[subscriberId].forwardToken
    {
      hide SettlementOk, TimersSoon, PendingOk, FreshDraw, Failed, PromisesOf, PendingWithout, Settled;
      if j.environmentId.Some? && exists id :: id in subscribers && subscribers[id].environmentId == j.environmentId {
        var id :| id in subscribers && subscribers[id].environmentId == j.environmentId;
        assert id == EnvironmentOwner(subscribers, j.environmentId);
        accepted, forwardToken := Reclaim(id, j, draw, now);
        subscriberId := id;
      } else {
        accepted, subscriberId, forwardToken := true, draw.subscriberId, draw.forwardToken;
        subscribers := subscribers[subscriberId := CreatedRow(j, draw, now)];
        QueueConnectionLog(ConnectedEvent(subscriberId, j, Registered));
        usedIds := usedIds + {subscriberId};
      }
    }

    /** The branches of `reclaimOrCreate` for an environment that has a row. */
    method Reclaim(id: string, j: Join, draw: Draw, now: int) returns (accepted: bool, forwardToken: string)
      requires SettlementOk(Reqs()) && HasEnvironment(subscribers, j.environmentId)
      requires id == EnvironmentOwner(subscribers, j.environmentId)
      modifies this`pendingConnectionLog, this`subscribers, this`pending, this`timers, this`outcomes, this`sockets,
               this`ignoreDisconnectLog
      ensures accepted <==> !IsRejected(old(St()), j)
      ensures !accepted ==> St() == RejectJoin(old(St()), j)
      ensures accepted ==> St() == Attach(old(St()), j, draw, now)
      ensures accepted ==> id in subscribers && forwardToken == subscribers[id].forwardToken
    {
      hide SettlementOk, TimersSoon, PendingOk, ClosedFor, TagSet, BindingsWithout, RemoveRow;
      var existing := subscribers[id];
      var live := existing.transport == Public || IsListed(id);
      if live && !TokenMatches(j.presented, existing.tokenHash) {
        QueueConnectionLog(Event(Rejected, EnvironmentInUse, id, existing.environmentId, existing.transport,
                                 TargetFor(existing.transport, existing.targetBaseUrl), j.clientIp));
        return false, "";
      }
      if live {
        QueueConnectionLog(Gone(existing, id, Replaced));
      }
      CloseSockets(id);
      FailPendingForSubscriber(id, SubscriberGone("subscriber_replaced"));
      var row := ReclaimedRow(existing, j, draw, now);
      subscribers := subscribers[id := row];
      QueueConnectionLog(ConnectedEvent(id, j, Reclaimed));
      return true, row.forwardToken;
    }

    method SetRouteId(route: string)
      modifies this`routeId
      ensures routeId == Some(route)
    {
      routeId := Some(route);
    }

    /** What a join is answered with, given the rows it leaves. */
    static function Reply(joined: Option<string>, rows: map<string, Row>, connectionToken: string): (r: JoinResponse)
      ensures r.Welcome? ==>
        joined == Some(r.subscriberId) && r.subscriberId in rows && r.forwardToken == rows[r.subscriberId].forwardToken
    {
      if joined.Some? && joined.value in rows then
        Welcome(joined.value, rows[joined.value].forwardToken, connectionToken)
      else EnvironmentTaken
    }

    /** The credentials handed out are those that the table holds from now on. */
    ghost predicate HoldsCredentials(response: JoinResponse)
      requires response.Welcome?
      reads this
    {
      && response.subscriberId in subscribers
      && response.forwardToken == subscribers[response.subscriberId].forwardToken
      && Verifies(subscribers, response.subscriberId, response.connectionToken)
    }

    static lemma ReplyMeans(s: State, step: Step)
      requires Inv(s) && Enabled(s, step) && IsJoin(step)
      ensures var joined, rows := Joined(s, step), Next(s, step).rows;
        var response := Reply(joined, rows, step.draw.connectionToken);
        && (response.Welcome? <==> joined.Some?) && !response.BadEnvironmentId?
        && (response.Welcome? ==>
              && response.subscriberId in rows && response.forwardToken == rows[response.subscriberId].forwardToken
              && Verifies(rows, response.subscriberId, response.connectionToken))
    {
      if Joined(s, step).Some? {
        RowAfter(s, step, Joined(s, step).value);
      }
      hide Inv, Enabled, Next, Joined, LosesRow, Renews;
    }

    /** Join a tunnel and list its socket. */
    method Admit(j: Join, draw: Draw, socket: nat, now: int) returns (response: JoinResponse)
      requires InvAt(St(), now) && FreshDraw(St(), draw) && routeId == Some(name)
      requires socket !in sockets && socket !in ignoreDisconnectLog
      modifies this, index
      ensures SameElsewhere(old(index.routes), index.routes, name)
      ensures St() == Admitted(old(St()), j, draw, now, socket)
      ensures response
           == Reply(if IsRejected(old(St()), j) then None else Some(JoinedId(old(St()), j, draw)), subscribers,
                    draw.connectionToken)
    {
      hide Attach, RejectJoin, IsRejected, JoinedId, Core, AlarmOk, IndexOk;
      AttachFrame(St(), j, draw, now);
      var accepted, id, forwardToken := ReclaimOrCreate(j, draw, now);
      if !accepted {
        FlushConnectionLog();
        return EnvironmentTaken;
      }
      SyncIndex(now);
      sockets := sockets[socket := Socket(id, true, None)];
      response := Welcome(id, forwardToken, draw.connectionToken);
    }

    /** A tunnel upgrade: purge, join, then list the new socket. */
    method Fetch(now: int, route: string, environmentParam: Option<string>, acceptWebhooks: bool, presented: string,
                 clientIp: Option<string>, draw: Draw, socket: nat)
      returns (response: JoinResponse, ghost order: seq<string>)
      requires Inv(St()) && clock <= now
      requires route == name && FreshDraw(St(), draw) && socket !in sockets && socket !in ignoreDisconnectLog
      modifies this, index
      ensures SameElsewhere(old(index.routes), index.routes, name)
      ensures var step := Step.Fetch(now, route, environmentParam, acceptWebhooks, presented, clientIp, draw, socket,
                                     order);
        && Enabled(old(St()), step) && St() == Next(old(St()), step) && Inv(St())
        && response == (if Refused(step) then BadEnvironmentId
                        else Reply(Joined(old(St()), step), subscribers, draw.connectionToken))
        && (response == BadEnvironmentId <==> !Purges(step))
        && (response.Welcome? <==> Joined(old(St()), step).Some?)
      ensures response.Welcome? ==> HoldsCredentials(response)
    {
      hide Inv, Purge, Core, AlarmOk, IndexOk, Removed, IsRejected, JoinedId, Admitted, Enabled, Next, InvAt,
           RouteIdOk, RowsOk, RowOk, EnvironmentsUnique, BindingsOk;
      ghost var s := St();
      ClockAdvances(s, now);
      if BadEnvironmentParam(environmentParam) {
        order := Arbitrary(Removed(s, now));
        clock := now;
        FetchStep(s, Step.Fetch(now, route, environmentParam, acceptWebhooks, presented, clientIp, draw, socket,
                                order));
        return BadEnvironmentId, order;
      }
      order := PurgeExpired(now);
      PurgeFrame(s, now, order);
      SetRouteId(route);
      WelcomedKeeps(s, now, route, order);
      response := Admit(Join(NonEmpty(environmentParam), Tunnel, "", presented, acceptWebhooks, clientIp), draw,
                        socket, now);
      clock := now;
      ghost var step := Step.Fetch(now, route, environmentParam, acceptWebhooks, presented, clientIp, draw, socket,
                                   order);
      FetchStep(s, step);
      ReplyMeans(s, step);
    }

    /** `fetch`: only a WebSocket upgrade of this route's tunnel path joins; the client's protocol is echoed. */
    method Upgrade(now: int, upgrade: Option<string>, path: string, protocols: Option<string>,
                   environmentParam: Option<string>, acceptWebhooks: bool, presented: string,
                   clientIp: Option<string>, draw: Draw, socket: nat)
      returns (answer: UpgradeAnswer, ghost order: seq<string>)
      requires Inv(St()) && clock <= now
      requires RouteIdFromTunnelPath(path).TunnelTo? ==> RouteIdFromTunnelPath(path).routeId == name
      requires FreshDraw(St(), draw) && socket !in sockets && socket !in ignoreDisconnectLog
      modifies this, index
      ensures SameElsewhere(old(index.routes), index.routes, name)
      ensures answer.ExpectedWebSocket? <==> !AsksForWebSocket(upgrade)
      ensures answer.InvalidTunnelPath? <==> AsksForWebSocket(upgrade) && RouteIdFromTunnelPath(path).NoTunnelPath?
      ensures answer.Throws? <==> AsksForWebSocket(upgrade) && RouteIdFromTunnelPath(path).BadEncoding?
      ensures !answer.Joins? ==> St() == old(St())
      ensures answer.Joins? ==>
        var step := Step.Fetch(now, name, environmentParam, acceptWebhooks, presented, clientIp, draw, socket, order);
        && Enabled(old(St()), step) && St() == Next(old(St()), step) && Inv(St())
        && answer.response
             == (if Refused(step) then BadEnvironmentId
                 else Reply(Joined(old(St()), step), subscribers, draw.connectionToken))
        && answer.protocol == if answer.response.Welcome? then SelectedProtocol(protocols) else None
    {
      hide Inv, FreshDraw, Enabled, Next, Joined, RouteIdFromTunnelPath, SelectedProtocol;
      order := [];
      if !AsksForWebSocket(upgrade) {
        return ExpectedWebSocket, order;
      }
      match RouteIdFromTunnelPath(path) {
        case NoTunnelPath =>
          answer := InvalidTunnelPath;
        case BadEncoding =>
          answer := Throws;
        case TunnelTo(route) =>
          var response, o := Fetch(now, route, environmentParam, acceptWebhooks, presented, clientIp, draw, socket);
          order := o;
          answer := Joins(response, if response.Welcome? then SelectedProtocol(protocols) else None);
      }
    }

    static lemma FetchStep(s: State, step: Step)
      requires Inv(s) && step.Fetch? && s.clock <= step.now && Enumerates(step.order, Removed(s, step.now))
      requires step.routeId == s.name && FreshDraw(s, step.draw) && step.socket !in s.sockets
      requires step.socket !in s.ignored
      ensures Enabled(s, step) && Inv(Next(s, step)) && Next(s, step) == NextFetch(s, step).(clock := step.now)
    {
      hide Inv, NextFetch, Removed, Enumerates;
      StepKeeps(s, step);
    }

    /** Join a public subscriber and schedule its cleanup. */
    method Enroll(j: Join, draw: Draw, now: int) returns (response: JoinResponse)
      requires InvAt(St(), now) && FreshDraw(St(), draw) && routeId == Some(name)
      modifies this, index
      ensures SameElsewhere(old(index.routes), index.routes, name)
      ensures St() == Enrolled(old(St()), j, draw, now)
      ensures response
           == Reply(if IsRejected(old(St()), j) then None else Some(JoinedId(old(St()), j, draw)), subscribers,
                    draw.connectionToken)
    {
      hide Attach, RejectJoin, IsRejected, JoinedId, Core, AlarmOk, IndexOk, CleanupAt;
      AttachFrame(St(), j, draw, now);
      var accepted, id, forwardToken := ReclaimOrCreate(j, draw, now);
      if !accepted {
        FlushConnectionLog();
        return EnvironmentTaken;
      }
      ScheduleCleanup(now);
      SyncIndex(now);
      response := Welcome(id, forwardToken, draw.connectionToken);
    }

    /** A public registration. */
    method Register(now: int, route: string, environmentId: Option<string>, targetBaseUrl: string, acceptWebhooks: bool,
                    presented: string, clientIp: Option<string>, draw: Draw)
      returns (response: JoinResponse, ghost order: seq<string>)
      requires Inv(St()) && clock <= now
      requires route == name && FreshDraw(St(), draw)
      modifies this, index
      ensures SameElsewhere(old(index.routes), index.routes, name)
      ensures var step := Step.Register(now, route, environmentId, targetBaseUrl, acceptWebhooks, presented, clientIp,
                                        draw, order);
        && Enabled(old(St()), step) && St() == Next(old(St()), step) && Inv(St())
        && response == Reply(Joined(old(St()), step), subscribers, draw.connectionToken)
        && (response.Welcome? <==> Joined(old(St()), step).Some?)
      ensures response.Welcome? ==> HoldsCredentials(response)
    {
      hide Inv, Purge, Core, AlarmOk, IndexOk, Removed, IsRejected, JoinedId, Enrolled, Enabled, Next, InvAt, RouteIdOk;
      ghost var s := St();
      ClockAdvances(s, now);
      order := PurgeExpired(now);
      PurgeFrame(s, now, order);
      SetRouteId(route);
      WelcomedKeeps(s, now, route, order);
      response := Enroll(Join(NonEmpty(environmentId), Public, targetBaseUrl, presented, acceptWebhooks, clientIp),
                         draw, now);
      clock := now;
      ghost var step := Step.Register(now, route, environmentId, targetBaseUrl, acceptWebhooks, presented, clientIp,
                                      draw, order);
      RegisterStep(s, step);
      ReplyMeans(s, step);
    }

    static lemma RegisterStep(s: State, step: Step)
      requires Inv(s) && step.Register? && s.clock <= step.now && Enumerates(step.order, Removed(s, step.now))
      requires step.routeId == s.name && FreshDraw(s, step.draw)
      ensures Enabled(s, step) && Inv(Next(s, step)) && Next(s, step) == NextRegister(s, step).(clock := step.now)
    {
      hide Inv, NextRegister, Removed, Enumerates;
      StepKeeps(s, step);
    }

    // ---- subscriber calls ------------------------------------------------------------

    /** Whether the lease was renewed. */
    method Heartbeat(now: int, subscriberId: string) returns (renewed: bool, ghost order: seq<string>)
      requires Inv(St()) && clock <= now
      modifies this
      ensures var step := Step.Heartbeat(now, subscriberId, order);
        Enabled(old(St()), step) && St() == Next(old(St()), step) && Inv(St())
      ensures renewed <==>
        subscriberId in KeptRows(old(St()), now) && KeptRows(old(St()), now)[subscriberId].expiresAt > now
    {
      hide Inv, InvAt, Removed, KeptRows, Purge, CleanupAt, Enabled, Next;
      ghost var s := St();
      ClockAdvances(s, now);
      order := PurgeExpired(now);
      PurgeTables(s, now, order);
      renewed := subscriberId in subscribers && subscribers[subscriberId].expiresAt > now;
      if renewed {
        ExtendSubscriber(subscriberId, now);
        ScheduleCleanup(now);
      }
      FlushConnectionLog();
      clock := now;
      HeartbeatStep(s, now, subscriberId, order);
    }

    static lemma HeartbeatStep(s: State, now: int, id: string, order: seq<string>)
      requires Inv(s) && s.clock <= now && Enumerates(order, Removed(s, now))
      ensures var step := Step.Heartbeat(now, id, order);
        Enabled(s, step) && Inv(Next(s, step)) && Next(s, step) == NextHeartbeat(s, now, id, order).(clock := now)
    {
      hide Inv, NextHeartbeat, Removed, Enumerates;
      StepKeeps(s, Step.Heartbeat(now, id, order));
    }

    method VerifyConnectionToken(subscriberId: string, token: string) returns (verified: bool)
      ensures verified <==> subscriberId in subscribers && subscribers[subscriberId].tokenHash == Sha256(token)
    {
      if subscriberId !in subscribers {
        return false;
      }
      return TokenMatches(token, subscribers[subscriberId].tokenHash);
    }

    /** Close the subscriber's sockets, fail its requests, remove its row. */
    method DropSubscriber(subscriberId: string)
      requires SettlementOk(Reqs())
      modifies this
      ensures St() == Dropped(old(St()), subscriberId)
    {
      hide SettlementOk, TagSet, ClosedFor, Failed, RemoveRow;
      CloseSockets(subscriberId);
      FailPendingForSubscriber(subscriberId, SubscriberGone("subscriber_disconnected"));
      RemoveSubscriberRow(subscriberId, Deregistered);
    }

    static lemma DroppedRowIsGone(s: State, id: string, now: int, order: seq<string>)
      ensures id !in Purge(Dropped(s, id), now, order).rows
    {
    }

    method Deregister(now: int, subscriberId: string) returns (ghost order: seq<string>)
      requires Inv(St()) && clock <= now
      modifies this, index
      ensures SameElsewhere(old(index.routes), index.routes, name)
      ensures var step := Step.Deregister(now, subscriberId, order);
        Enabled(old(St()), step) && St() == Next(old(St()), step) && Inv(St())
      ensures subscriberId !in subscribers
    {
      hide Core, IndexOk, AlarmOk, Removed, Purge, CleanupAt, Dropped, Enabled, Next, Inv;
      ghost var s := St();
      ClockAdvances(s, now);
      DroppedKeeps(s, subscriberId, now);
      SettlementHolds(s, now);
      DropSubscriber(subscriberId);
      order := PurgeExpired(now);
      DroppedRowIsGone(s, subscriberId, now, order);
      DroppedFrame(s, subscriberId);
      PurgeFrame(Dropped(s, subscriberId), now, order);
      if subscribers == map[] {
        alarm := None;
      } else {
        ScheduleCleanup(now);
      }
      SyncIndex(now);
      clock := now;
      Deregistration(s, now, subscriberId, order);
    }

    static lemma Deregistration(s: State, now: int, id: string, order: seq<string>)
      requires Inv(s) && s.clock <= now && Enumerates(order, Removed(Dropped(s, id), now))
      ensures var step := Step.Deregister(now, id, order);
        Enabled(s, step) && Next(s, step) == NextDeregister(s, now, id, order).(clock := now) && Inv(Next(s, step))
    {
      hide Inv, Dropped, Removed, NextDeregister;
      StepKeeps(s, Step.Deregister(now, id, order));
    }

    static lemma SettlementHolds(s: State, now: int)
      requires InvAt(s, now)
      ensures SettlementOk(s.requests)
    {
    }

    method BindOAuthState(now: int, subscriberId: string, oauthState: string)
      returns (response: BindResponse, ghost order: seq<string>)
      requires Inv(St()) && clock <= now
      modifies this
      ensures var step := Step.Bind(now, subscriberId, oauthState, order);
        Enabled(old(St()), step) && St() == Next(old(St()), step) && Inv(St())
      ensures response == InvalidOAuthState <==> !BindableState(oauthState)
      ensures response == Bound <==> BindableState(oauthState) && subscriberId in KeptRows(old(St()), now)
    {
      hide Inv, InvAt, Removed, Purge, KeptRows, Enabled, Next;
      ghost var s := St();
      ClockAdvances(s, now);
      if |oauthState| == 0 || |oauthState| > OAUTH_STATE_MAX_LENGTH {
        order := Arbitrary(Removed(s, now));
        clock := now;
        BindStep(s, now, subscriberId, oauthState, order);
        return InvalidOAuthState, order;
      }
      order := PurgeExpired(now);
      PurgeTables(s, now, order);
      if subscriberId !in subscribers {
        response := SubscriberNotFound;
      } else {
        oauthBindings := oauthBindings[oauthState := Binding(subscriberId, now + OAUTH_STATE_TTL_MS)];
        response := Bound;
      }
      FlushConnectionLog();
      clock := now;
      BindStep(s, now, subscriberId, oauthState, order);
    }

    static lemma BindStep(s: State, now: int, id: string, oauthState: string, order: seq<string>)
      requires Inv(s) && s.clock <= now && Enumerates(order, Removed(s, now))
      ensures var step := Step.Bind(now, id, oauthState, order);
        && Enabled(s, step) && Inv(Next(s, step))
        && Next(s, step) == NextBind(s, now, id, oauthState, order).(clock := now)
    {
      hide Inv, NextBind, Removed, Enumerates;
      StepKeeps(s, Step.Bind(now, id, oauthState, order));
    }

    // ---- lists -------------------------------------------------------------------------

    /** `ORDER BY created_at ASC`. */
    method OldestFirst() returns (ids: seq<string>)
      ensures Enumerates(ids, subscribers.Keys) && ByCreation(subscribers, ids)
    {
      ids := [];
      var left := subscribers.Keys;
      while left != {}
        invariant left <= subscribers.Keys
        invariant Enumerates(ids, subscribers.Keys - left) && ByCreation(subscribers, ids)
        invariant forall i, id :: 0 <= i < |ids| && id in left ==>
          subscribers[ids[i]].createdAt <= subscribers[id].createdAt
        decreases left
      {
        OldestExists(subscribers, left);
        var id :| id in left && forall other :: other in left ==>
          subscribers[id].createdAt <= subscribers[other].createdAt;
        EnumeratesSnoc(ids, subscribers.Keys - left, id);
        left := left - {id};
        ids := ids + [id];
        assert subscribers.Keys - left == subscribers.Keys - left - {id} + {id};
      }
    }

    static lemma OldestExists(rows: map<string, Row>, ids: set<string>)
      requires ids != {} && ids <= rows.Keys
      ensures exists id :: id in ids && forall other :: other in ids ==> rows[id].createdAt <= rows[other].createdAt
    {
      var times := set id | id in ids :: rows[id].createdAt;
      var some :| some in ids;
      assert rows[some].createdAt in times;
      var first := MinOf(times);
      var id :| id in ids && rows[id].createdAt == first;
      assert forall other :: other in ids ==> rows[other].createdAt in times;
    }

    /** Public rows, tunnel rows with an OPEN socket and, on request, parked environment tunnels; oldest first. */
    method Listing(parkedToo: bool) returns (ids: seq<string>)
      ensures Enumerates(ids, if parkedToo then Active(St()) else Deliverable(St())) && ByCreation(subscribers, ids)
    {
      hide Enumerates, ByCreation;
      var all := OldestFirst();
      ids := [];
      ghost var wanted := if parkedToo then Active(St()) else Deliverable(St());
      NothingListed(subscribers, wanted, all);
      for i := 0 to |all|
        invariant ListedSoFar(subscribers, wanted, all, i, ids)
      {
        hide ListedSoFar;
        ListNext(subscribers, wanted, all, i, ids);
        var row := subscribers[all[i]];
        if row.transport == Public || IsOpen(all[i]) || (parkedToo && row.environmentId.Some?) {
          ids := ids + [all[i]];
        }
      }
      AllListed(subscribers, wanted, all, ids);
    }

    /** The wanted ids among the first `i` of all. */
    static ghost predicate ListedSoFar(rows: map<string, Row>, wanted: set<string>, all: seq<string>, i: nat,
                                       ids: seq<string>) {
      && i <= |all| && Enumerates(all, rows.Keys) && ByCreation(rows, all)
      && (forall id :: id in ids <==> id in all[..i] && id in wanted)
      && Distinct(ids) && ByCreation(rows, ids)
      && (forall k, j :: 0 <= k < |ids| && i <= j < |all| ==> rows[ids[k]].createdAt <= rows[all[j]].createdAt)
    }

    static lemma NothingListed(rows: map<string, Row>, wanted: set<string>, all: seq<string>)
      requires Enumerates(all, rows.Keys) && ByCreation(rows, all)
      ensures ListedSoFar(rows, wanted, all, 0, [])
    {
    }

    static lemma ListNext(rows: map<string, Row>, wanted: set<string>, all: seq<string>, i: nat, ids: seq<string>)
      requires ListedSoFar(rows, wanted, all, i, ids) && i < |all|
      ensures all[i] in rows
      ensures ListedSoFar(rows, wanted, all, i + 1, if all[i] in wanted then ids + [all[i]] else ids)
    {
      assert all[..i + 1] == all[..i] + [all[i]];
      assert all[i] !in all[..i];
    }

    static lemma AllListed(rows: map<string, Row>, wanted: set<string>, all: seq<string>, ids: seq<string>)
      requires ListedSoFar(rows, wanted, all, |all|, ids) && wanted <= rows.Keys
      ensures Enumerates(ids, wanted) && ByCreation(rows, ids)
    {
      assert all[..|all|] == all;
    }

    method GetActiveSubscribers(now: int) returns (active: seq<SubscriberView>, ghost order: seq<string>)
      requires Inv(St()) && clock <= now
      modifies this
      ensures var step := Step.GetActive(now, order);
        Enabled(old(St()), step) && St() == Next(old(St()), step) && Inv(St())
      ensures Lists(active, Active(St()), subscribers)
    {
      hide Purge, Inv, InvAt, Removed, Enumerates, Lists;
      ghost var s := St();
      ClockAdvances(s, now);
      order := PurgeExpired(now);
      var ids := Listing(true);
      active := Views(subscribers, ids);
      ViewsList(subscribers, ids, Active(St()));
      FlushConnectionLog();
      clock := now;
      StepKeeps(s, Step.GetActive(now, order));
    }

    /** Listing the active subscribers, and dropping the route from the index when there are none. */
    method PruneIndex(now: int) returns (ghost order: seq<string>)
      requires Inv(St()) && clock <= now
      modifies this, index
      ensures SameElsewhere(old(index.routes), index.routes, name)
      ensures var step := Step.Prune(now, order);
        Enabled(old(St()), step) && St() == Next(old(St()), step) && Inv(St())
    {
      hide Purge, Inv, InvAt, Removed, Enumerates, Lists;
      ghost var s := St();
      var active, o := GetActiveSubscribers(now);
      order := o;
      NoneListed(active, Active(St()), subscribers);
      if |active| == 0 {
        index.RemoveRoute(name);
      }
      StepKeeps(s, Step.Prune(now, order));
    }

    /** The management API adds the route once more after a registration. */
    method AddToIndex(now: int)
      requires Inv(St()) && clock <= now
      modifies this, index
      ensures SameElsewhere(old(index.routes), index.routes, name)
      ensures var step := Step.AddToIndex(now);
        Enabled(old(St()), step) && St() == Next(old(St()), step) && Inv(St())
    {
      hide Core, IndexOk, AlarmOk;
      ghost var s := St();
      index.AddRoute(name, now);
      clock := now;
      StepKeeps(s, Step.AddToIndex(now));
    }

    // ---- deliveries --------------------------------------------------------------------

    /** The purged object's deliverable subscribers. */
    method DeliverySubscribers(now: int) returns (ids: seq<string>, ghost order: seq<string>)
      requires InvAt(St(), now)
      modifies this
      ensures Enumerates(order, Removed(old(St()), now)) && St() == Purge(old(St()), now, order)
      ensures Enumerates(ids, Deliverable(St())) && ByCreation(subscribers, ids)
    {
      hide Purge, InvAt, Removed, Enumerates, ByCreation;
      order := PurgeExpired(now);
      ids := Listing(false);
    }

    method WebhookFanoutTargets(now: int, path: string, settings: WebhookPathFilter.Settings)
      returns (targets: seq<string>, ghost order: seq<string>)
      requires InvAt(St(), now)
      modifies this
      ensures Enumerates(order, Removed(old(St()), now)) && St() == Purge(old(St()), now, order)
      ensures IsFanoutList(St(), path, settings, targets)
    {
      hide Purge, InvAt, Removed, Enumerates, IsFanoutList, Deliverable;
      var ids, o := DeliverySubscribers(now);
      order := o;
      SelectionIsFanoutList(St(), path, settings, ids);
      targets := IdsOf(WebhookPathFilter.Select(SubscribersOf(subscribers, ids), path, settings));
    }

    method CountWebhookFanoutDeliveries(now: int, path: string, settings: WebhookPathFilter.Settings)
      returns (count: nat, ghost order: seq<string>)
      requires Inv(St()) && clock <= now
      modifies this
      ensures var step := Step.CountFanout(now, order);
        Enabled(old(St()), step) && St() == Next(old(St()), step) && Inv(St())
      ensures count == |FanoutTargets(St(), path, settings)|
    {
      hide Purge, Inv, InvAt, Removed, Enumerates;
      ghost var s := St();
      ClockAdvances(s, now);
      var targets, o := WebhookFanoutTargets(now, path, settings);
      order := o;
      count := |targets|;
      EnumerationLength(targets, FanoutTargets(St(), path, settings));
      clock := now;
      assert FanoutTargets(St(), path, settings) == FanoutTargets(Purge(s, now, order), path, settings);
      StepKeeps(s, Step.CountFanout(now, order));
    }

    /** Send a request over the subscriber's OPEN socket; the promise waits for answer, failure or timer. */
    method SendAndWait(subscriberId: string, requestId: string, broken: set<string>, now: int) returns (promise: nat)
      requires SettlementOk(Reqs())
      modifies this`pending, this`timers, this`nextPromise, this`outcomes
      ensures Reqs()
           == Sending(old(Reqs()), HasOpen(sockets, subscriberId), subscriberId in broken, subscriberId, requestId, now)
      ensures promise == old(nextPromise)
    {
      hide SettlementOk;
      FreshPromise(Reqs());
      promise := nextPromise;
      nextPromise := nextPromise + 1;
      PutTwice(outcomes, promise, [], [NoSocket]);
      PutTwice(outcomes, promise, [], [SendFailed]);
      PutThenRemove(timers, promise, Timer(requestId, now + DELIVERY_TIMEOUT_MS));
      PutThenRemove(pending, requestId, Pending(subscriberId, promise));
      outcomes := outcomes[promise := []];
      var ws := LiveSocket(subscriberId);
      hide HasOpen;
      if ws.None? {
        outcomes := outcomes[promise := [NoSocket]];
        return;
      }
      timers := timers[promise := Timer(requestId, now + DELIVERY_TIMEOUT_MS)];
      pending := pending[requestId := Pending(subscriberId, promise)];
      if subscriberId in broken {
        timers := timers - {promise};
        pending := pending - {requestId};
        outcomes := outcomes[promise := [SendFailed]];
      }
    }

    static lemma PutThenRemove<K, V>(m: map<K, V>, k: K, v: V)
      ensures m[k := v] - {k} == m - {k}
      ensures k !in m ==> m[k := v] - {k} == m
    {
    }

    static lemma PutTwice<K, V>(m: map<K, V>, k: K, v: V, w: V)
      ensures m[k := v][k := w] == m[k := w]
    {
    }

    static lemma FreshPromise(r: Requests)
      requires SettlementOk(r)
      ensures r.nextPromise !in r.timers
    {
    }

    /** Renew the subscriber, then forward over its tunnel or to its public target. */
    method Deliver(subscriberId: string, requestId: string, tooLarge: bool, broken: set<string>, now: int)
      returns (delivery: Delivery)
      requires SettlementOk(Reqs()) && subscriberId in subscribers
      modifies this`subscribers, this`pending, this`timers, this`nextPromise, this`outcomes
      ensures St() == RouteState.Deliver(old(St()), subscriberId, requestId, tooLarge, broken, now)
      ensures delivery == DeliveryFor(old(subscribers)[subscriberId], tooLarge, old(nextPromise))
    {
      hide SettlementOk, Sending;
      var row := subscribers[subscriberId];
      ExtendSubscriber(subscriberId, now);
      if row.transport == Tunnel {
        if tooLarge {
          return DeliveryTooLarge;
        }
        var promise := SendAndWait(subscriberId, requestId, broken, now);
        return Awaiting(promise);
      }
      return Fetched(row.targetBaseUrl);
    }

    /** Deliver to every selected subscriber, one tunnel request id for all of them. */
    method FanOut(now: int, path: string, settings: WebhookPathFilter.Settings, requestId: string, tooLarge: bool,
                  broken: set<string>)
      returns (targets: seq<string>, ghost order: seq<string>)
      requires Inv(St()) && clock <= now
      modifies this
      ensures var step := Step.FanOut(now, path, settings, targets, requestId, tooLarge, broken, order);
        Enabled(old(St()), step) && St() == Next(old(St()), step) && Inv(St())
    {
      hide Purge, Inv, InvAt, Removed, Enumerates, IsFanoutList, RouteState.Deliver, Enabled, Next;
      ghost var s := St();
      ClockAdvances(s, now);
      var ids, o := WebhookFanoutTargets(now, path, settings);
      targets, order := ids, o;
      PurgeKeeps(s, now, order);
      ghost var p := St();
      for i := 0 to |targets|
        invariant St() == DeliverAll(p, targets[..i], requestId, tooLarge, broken, now)
      {
        DeliverAllReady(p, targets[..i], requestId, tooLarge, broken, now);
        FanoutListed(p, path, settings, targets, i);
        var _ := Deliver(targets[i], requestId, tooLarge, broken, now);
        assert targets[..i + 1][..i] == targets[..i];
      }
      assert targets[..|targets|] == targets;
      clock := now;
      FanOutStep(s, Step.FanOut(now, path, settings, targets, requestId, tooLarge, broken, order));
    }

    static lemma FanOutStep(s: State, step: Step)
      requires Inv(s) && step.FanOut? && s.clock <= step.now && Enumerates(step.order, Removed(s, step.now))
      requires IsFanoutList(Purge(s, step.now, step.order), step.path, step.settings, step.targets)
      ensures Enabled(s, step) && Inv(Next(s, step))
      ensures Next(s, step)
           == DeliverAll(Purge(s, step.now, step.order), step.targets, step.requestId, step.tooLarge, step.broken,
                         step.now).(clock := step.now)
    {
      hide Inv, Purge, DeliverAll, IsFanoutList, Removed, Enumerates;
      StepKeeps(s, step);
    }

    static lemma DeliverAllReady(s: State, ids: seq<string>, requestId: string, tooLarge: bool, broken: set<string>,
                                 now: int)
      requires InvAt(s, now)
      ensures var d := DeliverAll(s, ids, requestId, tooLarge, broken, now);
        SettlementOk(d.requests) && d.rows.Keys == s.rows.Keys
    {
      DeliverAllKeeps(s, ids, requestId, tooLarge, broken, now);
      DeliverAllRows(s, ids, requestId, tooLarge, broken, now);
    }

    static lemma {:induction false} DeliverAllRows(s: State, ids: seq<string>, requestId: string, tooLarge: bool,
                                                   broken: set<string>, now: int)
      ensures DeliverAll(s, ids, requestId, tooLarge, broken, now).rows.Keys == s.rows.Keys
      decreases |ids|
    {
      if ids != [] {
        DeliverAllRows(s, ids[..|ids| - 1], requestId, tooLarge, broken, now);
      }
    }

    static lemma FanoutListed(s: State, path: string, settings: WebhookPathFilter.Settings, targets: seq<string>,
                              i: nat)
      requires IsFanoutList(s, path, settings, targets) && i < |targets|
      ensures targets[i] in s.rows
    {
      assert targets[i] in targets;
    }

    /** The one subscriber of an OAuth callback: named by a signed state, bound, or the only one there is. */
    method ResolveOAuthSubscriber(oauthState: Option<string>, signed: Option<Signed>, candidates: seq<string>, now: int)
      returns (matched: Option<string>)
      requires Enumerates(candidates, Deliverable(St()))
      ensures matched == OAuthTarget(St(), oauthState, signed, now)
      ensures Uncorrelated(St(), oauthState, signed, now) ==> IsOnlyOne(matched, Deliverable(St()))
    {
      EnumerationLength(candidates, Deliverable(St()));
      OnlyOneIsSole(Deliverable(St()));
      if |candidates| == 1 {
        assert candidates[0] in candidates;
        assert Deliverable(St()) == {candidates[0]};
      }
      if oauthState.Some? && oauthState.value != "" {
        if signed.Some? {
          if routeId.Some? && signed.value.route != routeId.value {
            return None;
          }
          return if signed.value.sub in candidates then Some(signed.value.sub) else None;
        }
        if oauthState.value in oauthBindings && oauthBindings[oauthState.value].expiresAt > now {
          var bound := oauthBindings[oauthState.value].subscriberId;
          return if bound in candidates then Some(bound) else None;
        }
      }
      if |candidates| == 1 {
        return Some(candidates[0]);
      }
      return None;
    }

    method ProxyOAuth(now: int, oauthState: Option<string>, signed: Option<Signed>, requestId: string, tooLarge: bool,
                      broken: set<string>)
      returns (result: ProxyResult, ghost order: seq<string>)
      requires Inv(St()) && clock <= now
      modifies this
      ensures var step := Step.ProxyOAuth(now, oauthState, signed, requestId, tooLarge, broken, order);
        Enabled(old(St()), step) && St() == Next(old(St()), step) && Inv(St())
      ensures var p := Purge(old(St()), now, order);
        && result == ProxyAnswer(p, OAuthTarget(p, oauthState, signed, now), tooLarge)
        && (Uncorrelated(p, oauthState, signed, now) ==> AnswersUncorrelated(p, tooLarge, result))
    {
      hide Purge, Inv, InvAt, Removed, Enumerates, OAuthTarget, ByCreation, RouteState.Deliver, Deliverable, Enabled,
           Next, SettlementOk;
      ghost var s := St();
      ClockAdvances(s, now);
      var candidates, o := DeliverySubscribers(now);
      order := o;
      ghost var p := St();
      PurgeKeeps(s, now, order);
      SettlementHolds(p, now);
      EnumerationLength(candidates, Deliverable(p));
      var matched := ResolveOAuthSubscriber(oauthState, signed, candidates, now);
      TargetIsRow(p, oauthState, signed, now);
      ProxyAnswerMeans(p, oauthState, signed, tooLarge, now);
      if matched.None? {
        result := if |candidates| == 0 then RouteNotFound
                  else if |candidates| > 1 then Unroutable else OAuthSubscriberNotFound;
      } else if tooLarge && subscribers[matched.value].transport == Tunnel {
        result := RequestTooLarge;
      } else {
        var delivery := Deliver(matched.value, requestId, tooLarge, broken, now);
        result := Proxied(matched.value, delivery);
      }
      clock := now;
      ProxyStep(s, Step.ProxyOAuth(now, oauthState, signed, requestId, tooLarge, broken, order));
    }

    static lemma ProxyStep(s: State, step: Step)
      requires Inv(s) && step.ProxyOAuth? && s.clock <= step.now && Enumerates(step.order, Removed(s, step.now))
      ensures Enabled(s, step) && Inv(Next(s, step)) && Next(s, step) == NextProxy(s, step).(clock := step.now)
    {
      hide Inv, NextProxy, Removed, Enumerates;
      StepKeeps(s, step);
    }

    static lemma TargetIsRow(s: State, oauthState: Option<string>, signed: Option<Signed>, now: int)
      ensures var target := OAuthTarget(s, oauthState, signed, now);
        target.Some? ==> target.value in s.rows && Deliverable(s) != {}
    {
    }

    // ---- sockets, timers, alarm ------------------------------------------------------------

    method WebSocketMessage(now: int, socket: nat, message: ClientMessage)
      requires Inv(St()) && clock <= now && socket in sockets
      modifies this
      ensures var step := Step.Message(now, socket, message);
        Enabled(old(St()), step) && St() == Next(old(St()), step) && Inv(St())
    {
      hide Inv, Answer, Enabled, Next;
      ghost var s := St();
      match message {
        case Beat =>
          ExtendSubscriber(sockets[socket].tag, now);
        case Noise =>
        case Response(id) =>
          Settle(id, Answered);
        case Error(id) =>
          Settle(id, Errored);
      }
      clock := now;
      MessageStep(s, now, socket, message);
    }

    static lemma MessageStep(s: State, now: int, socket: nat, message: ClientMessage)
      requires Inv(s) && s.clock <= now && socket in s.sockets
      ensures var step := Step.Message(now, socket, message);
        && Enabled(s, step) && Inv(Next(s, step))
        && Next(s, step) == NextMessage(s, now, socket, message).(clock := now)
    {
      hide Inv, NextMessage;
      StepKeeps(s, Step.Message(now, socket, message));
    }

    /** Settle a pending request, if its entry is still there. */
    method Settle(requestId: string, ghost outcome: Outcome)
      modifies this`pending, this`timers, this`outcomes
      ensures Reqs() == Answer(old(Reqs()), requestId, outcome)
    {
      if requestId in pending {
        SettleEntry(requestId, outcome);
      }
    }

    /** A socket is gone: park an environment tunnel, remove any other; unless the disconnect is already logged. */
    method DetachSocket(socket: nat, tag: string, reason: Reason, now: int)
      requires SettlementOk(Reqs()) && RouteId.IsAllowedRouteId(name) && (routeId.Some? ==> routeId.value == name)
      modifies this, index
      ensures SameElsewhere(old(index.routes), index.routes, name)
      ensures St() == Detach(old(St()), socket, tag, reason, now)
    {
      hide SettlementOk, RemoveRow, Failed, CleanupAt;
      FailPendingForSubscriber(tag, SubscriberGone("tunnel_disconnected"));
      if socket in ignoreDisconnectLog {
        return;
      }
      if tag in subscribers && subscribers[tag].environmentId.Some? {
        Park(tag, reason, now);
      } else {
        RemoveSubscriberRow(tag, reason);
      }
      SyncIndex(now);
    }

    /** Keep the row of an environment tunnel whose socket is gone, and schedule its cleanup. */
    method Park(tag: string, reason: Reason, now: int)
      requires tag in subscribers
      modifies this`pendingConnectionLog, this`subscribers, this`alarm, this`scheduledAt
      ensures St() == Schedule(ParkedState(old(St()), tag, reason, now), now)
    {
      hide CleanupAt;
      QueueConnectionLog(Event(Disconnected, reason, tag, subscribers[tag].environmentId, Tunnel,
                               Some("reverse-tunnel"), None));
      ExtendSubscriber(tag, now);
      ScheduleCleanup(now);
    }

    /** `webSocketClose`, and `webSocketError` with no close code. */
    method WebSocketClose(now: int, socket: nat, code: Option<int>)
      requires Inv(St()) && clock <= now && socket in sockets
      modifies this, index
      ensures SameElsewhere(old(index.routes), index.routes, name)
      ensures var step := Step.SocketGone(now, socket, code == Some(4000));
        Enabled(old(St()), step) && St() == Next(old(St()), step) && Inv(St())
    {
      hide Inv, Core, IndexOk, AlarmOk, Detach, Enabled, Next;
      ghost var s := St();
      ClockAdvances(s, now);
      SettlementHolds(s, now);
      var tag := sockets[socket].tag;
      sockets := sockets - {socket};
      DetachSocket(socket, tag, if code == Some(4000) then StaleTunnel else SocketClosed, now);
      clock := now;
      SocketGoneStep(s, now, socket, code == Some(4000));
    }

    static lemma SocketGoneStep(s: State, now: int, socket: nat, stale: bool)
      requires Inv(s) && s.clock <= now && socket in s.sockets
      ensures var step := Step.SocketGone(now, socket, stale);
        Enabled(s, step) && Inv(Next(s, step)) && Next(s, step) == NextSocketGone(s, now, socket, stale).(clock := now)
    {
      hide Inv, NextSocketGone;
      StepKeeps(s, Step.SocketGone(now, socket, stale));
    }

    /** The timer of a promise: delete whatever its key now holds, and reject. */
    method TimerFires(now: int, promise: nat)
      requires Inv(St()) && clock <= now && promise in timers && timers[promise].dueAt <= now
      modifies this
      ensures var step := Step.TimerFires(now, promise);
        Enabled(old(St()), step) && St() == Next(old(St()), step) && Inv(St())
    {
      hide Inv, Enabled, Next, Settled;
      ghost var s := St();
      pending := pending - {timers[promise].requestId};
      timers := timers - {promise};
      outcomes := Settled(outcomes, {promise}, TimedOut);
      clock := now;
      TimerStep(s, now, promise);
    }

    static lemma TimerStep(s: State, now: int, promise: nat)
      requires Inv(s) && s.clock <= now && promise in s.requests.timers && s.requests.timers[promise].dueAt <= now
      ensures var step := Step.TimerFires(now, promise);
        && Enabled(s, step) && Inv(Next(s, step))
        && Next(s, step) == s.(requests := TimeOut(s.requests, promise), clock := now)
    {
      hide Inv, TimeOut;
      StepKeeps(s, Step.TimerFires(now, promise));
    }

    method Alarm(now: int) returns (ghost order: seq<string>)
      requires Inv(St()) && clock <= now && alarm.Some? && alarm.value <= now
      modifies this, index
      ensures SameElsewhere(old(index.routes), index.routes, name)
      ensures var step := Step.AlarmFires(now, order);
        Enabled(old(St()), step) && St() == Next(old(St()), step) && Inv(St())
    {
      hide Inv, Core, IndexOk, AlarmOk, Removed, CleanupAt, Purge, Enabled, Next;
      ghost var s := St();
      ClockAdvances(s, now);
      order := PurgeExpired(now);
      PurgeFrame(s, now, order);
      ScheduleCleanup(now);
      SyncIndex(now);
      clock := now;
      AlarmStep(s, now, order);
    }

    /** The purge neither reads nor writes the alarm. */
    static lemma AlarmStep(s: State, now: int, order: seq<string>)
      requires Inv(s) && s.clock <= now && Enumerates(order, Removed(s, now)) && s.alarm.Some? && s.alarm.value <= now
      ensures var step := Step.AlarmFires(now, order);
        && Enabled(s, step) && Inv(Next(s, step))
        && Next(s, step) == Sync(Schedule(Purge(s, now, order), now)).(clock := now)
    {
      assert Purge(s.(alarm := None), now, order) == Purge(s, now, order).(alarm := None);
      hide Inv, Purge, Removed, CleanupAt;
      StepKeeps(s, Step.AlarmFires(now, order));
    }
  }

  datatype BindResponse = Bound | InvalidOAuthState | SubscriberNotFound

  /** What became of one forwarded request. */
  datatype Delivery = Fetched(targetBaseUrl: string) | DeliveryTooLarge | Awaiting(promise: nat)

  function DeliveryFor(row: Row, tooLarge: bool, promise: nat): Delivery {
    if row.transport == Public then Fetched(row.targetBaseUrl)
    else if tooLarge then DeliveryTooLarge else Awaiting(promise)
  }

  /**
   Every delivery goes where its subscriber last connected from, after any run: a public one to the target
   of the latest registration, and one over a tunnel if that connect was an upgrade.
   */
  lemma DeliveryFollowsLatestConnect(s0: State, steps: seq<Step>, now: int, order: seq<string>, id: string,
                                     tooLarge: bool, promise: nat)
    requires Initial(s0) && Runs(s0, steps) && id in Purge(After(s0, steps), now, order).rows
    ensures var join := LatestJoin(s0, steps, id);
      var row := Purge(After(s0, steps), now, order).rows[id];
      && join.Some?
      && DeliveryFor(row, tooLarge, promise)
           == match join.value
              case Register(_, _, _, targetBaseUrl, _, _, _, _, _) => Fetched(targetBaseUrl)
              case _ => if tooLarge then DeliveryTooLarge else Awaiting(promise)
  {
    InitialHolds(s0);
    PurgedRow(After(s0, steps), now, id);
    PurgeTables(After(s0, steps), now, order);
    hide Purge, KeptRows, Initial, Runs, After, LatestJoin, Inv;
    StartsEmpty(s0, id);
    CredentialsAreLatest(s0, steps, id);
  }

  lemma StartsEmpty(s0: State, id: string)
    requires Initial(s0)
    ensures id !in s0.rows
  {
  }

  /** An OAuth callback's answer: 404, 409, 404, 413, or whatever the delivery brings. */
  datatype ProxyResult =
    | RouteNotFound
    | Unroutable
    | OAuthSubscriberNotFound
    | RequestTooLarge
    | Proxied(subscriberId: string, delivery: Delivery)

  ghost function ProxyAnswer(p: State, target: Option<string>, tooLarge: bool): ProxyResult
  {
    if target.None? || target.value !in p.rows then
      if |Deliverable(p)| == 0 then RouteNotFound
      else if |Deliverable(p)| > 1 then Unroutable else OAuthSubscriberNotFound
    else if tooLarge && p.rows[target.value].transport == Tunnel then RequestTooLarge
    else Proxied(target.value, DeliveryFor(p.rows[target.value], tooLarge, p.requests.nextPromise))
  }

  /** An uncorrelated callback is proxied to the only candidate, 404 without one and 409 with several. */
  ghost predicate AnswersUncorrelated(p: State, tooLarge: bool, result: ProxyResult) {
    var candidates := Deliverable(p);
    && (candidates == {} ==> result == RouteNotFound)
    && (|candidates| > 1 ==> result == Unroutable)
    && (forall id :: candidates == {id} && id in p.rows ==>
          if tooLarge && p.rows[id].transport == Tunnel then result == RequestTooLarge
          else result.Proxied? && result.subscriberId == id)
  }

  /** What each answer says about the target and the candidates, and where a proxied callback goes. */
  ghost predicate AnswersTarget(p: State, target: Option<string>, tooLarge: bool, result: ProxyResult) {
    var candidates := Deliverable(p);
    && (result == RouteNotFound <==> candidates == {})
    && (result == Unroutable <==> target.None? && |candidates| > 1)
    && (result == OAuthSubscriberNotFound <==> target.None? && |candidates| == 1)
    && (target.Some? ==>
          && target.value in p.rows
          && var row := p.rows[target.value];
             if row.transport == Public then result == Proxied(target.value, Fetched(row.targetBaseUrl))
             else if tooLarge then result == RequestTooLarge
             else result == Proxied(target.value, Awaiting(p.requests.nextPromise)))
  }

  lemma ProxyAnswerMeans(p: State, state: Option<string>, signed: Option<Signed>, tooLarge: bool, now: int)
    ensures var target := OAuthTarget(p, state, signed, now);
      var result := ProxyAnswer(p, target, tooLarge);
      && AnswersTarget(p, target, tooLarge, result)
      && (Uncorrelated(p, state, signed, now) ==> AnswersUncorrelated(p, tooLarge, result))
  {
    TargetIsDeliverable(p, state, signed, now);
    var target := OAuthTarget(p, state, signed, now);
    if Uncorrelated(p, state, signed, now) {
      UncorrelatedGoesToTheOnlyOne(p, state, signed, now);
    }
    hide OAuthTarget, Uncorrelated;
    assert target.Some? ==> target.value in Deliverable(p) && target.value in p.rows;
    assert |Deliverable(p)| == 0 <==> Deliverable(p) == {};
    forall id | Deliverable(p) == {id} ensures |Deliverable(p)| == 1 {
    }
  }

  /** A subscriber as listed to operators; a tunnel's target is not shown. */
  datatype SubscriberView = SubscriberView(id: string, targetBaseUrl: string, row: Row)

  function View(id: string, row: Row): SubscriberView {
    SubscriberView(id, if row.transport == Tunnel then "reverse-tunnel" else row.targetBaseUrl, row)
  }

  function Views(rows: map<string, Row>, ids: seq<string>): (views: seq<SubscriberView>)
    requires forall i :: 0 <= i < |ids| ==> ids[i] in rows
    ensures |views| == |ids|
  {
    seq(|ids|, i requires 0 <= i < |ids| => View(ids[i], rows[ids[i]]))
  }

  /** Each of the given subscribers once, as it is in the table, oldest first. */
  ghost predicate Lists(views: seq<SubscriberView>, ids: set<string>, rows: map<string, Row>) {
    && (forall i :: 0 <= i < |views| ==>
          && views[i].id in ids && views[i].id in rows && views[i].row == rows[views[i].id]
          && views[i].targetBaseUrl
               == (if views[i].row.transport == Tunnel then "reverse-tunnel" else views[i].row.targetBaseUrl))
    && (forall i, j :: 0 <= i < j < |views| ==>
          views[i].id != views[j].id && views[i].row.createdAt <= views[j].row.createdAt)
    && (forall id :: id in ids ==> exists i :: 0 <= i < |views| && views[i].id == id)
  }

  lemma ViewsList(rows: map<string, Row>, order: seq<string>, ids: set<string>)
    requires Enumerates(order, ids) && ByCreation(rows, order)
    ensures Lists(Views(rows, order), ids, rows)
  {
    var views := Views(rows, order);
    forall i | 0 <= i < |views| ensures views[i].id in ids {
      assert order[i] in order;
    }
    forall id | id in ids ensures exists i :: 0 <= i < |views| && views[i].id == id {
      var i :| 0 <= i < |order| && order[i] == id;
      assert views[i].id == id;
    }
  }

  lemma NoneListed(views: seq<SubscriberView>, ids: set<string>, rows: map<string, Row>)
    requires Lists(views, ids, rows)
    ensures |views| == 0 <==> ids == {}
  {
    if |views| > 0 {
      assert views[0].id in ids;
    }
  }
}
