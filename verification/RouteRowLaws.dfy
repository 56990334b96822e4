/**
 What a step does to every row and binding, told on the tables alone: which ones there are afterwards,
 and every field of each.
 */
module RouteRowLaws {
  import opened Wrappers
  import opened RouteState
  import opened RouteSteps
  import opened RouteInvariant
  import opened RoutePrimitives
  import opened RouteKeeps
  import opened RouteCarry
  import opened RouteReachable
  import opened RouteRuns
  import RouteId

  // ---- why a row goes ----------------------------------------------------------------

  /** Steps that purge: all but socket events, timers and the index's own, if their arguments are in order. */
  predicate Purges(step: Step) {
    match step
    case Fetch(_, _, param, _, _, _, _, _, _) =>
      param.None? || param.value == "" || RouteId.IsAllowedEnvironmentId(param.value)
    case Bind(_, _, boundState, _) => 0 < |boundState| <= 2048
    case Message(_, _, _) => false
    case SocketGone(_, _, _) => false
    case PeerClosing(_, _) => false
    case AutoPong(_, _) => false
    case TimerFires(_, _) => false
    case FlushLog(_) => false
    case AddToIndex(_) => false
    case _ => true
  }

  ghost predicate Socketless(s: State, id: string) {
    forall w :: w in s.sockets ==> s.sockets[w].tag != id
  }

  /** Too old for a purge: an expired public row, and a tunnel row without a socket that is anonymous or expired. */
  ghost predicate Lapses(s: State, id: string, now: int)
    requires id in s.rows
  {
    var row := s.rows[id];
    if row.transport == Public then row.expiresAt <= now
    else Socketless(s, id) && (row.environmentId.None? || row.expiresAt <= now)
  }

  /** Deregistered, an anonymous tunnel that lost its socket, or purged. */
  ghost predicate LosesRow(s: State, step: Step, id: string)
    requires id in s.rows
  {
    || (step.Deregister? && step.subscriberId == id)
    || (step.SocketGone? && step.socket in s.sockets && step.socket !in s.ignored
        && s.sockets[step.socket].tag == id && s.rows[id].environmentId.None?)
    || (Purges(step) && Lapses(s, id, step.now))
  }

  // ---- what renews a lease -------------------------------------------------------------

  /** The subscriber a callback is delivered to: its target, unless the body is too large for its tunnel. */
  ghost function ProxiedTo(s: State, step: Step): Option<string>
    requires step.ProxyOAuth?
  {
    var target := OAuthTarget(Purge(s, step.now, step.order), step.oauthState, step.signed, step.now);
    if target.Some? && step.tooLarge && target.value in s.rows && s.rows[target.value].transport == Tunnel then None
    else target
  }

  /** The subscriber is heard from or delivered to, or its tunnel leaves or outlives its lease. */
  ghost predicate Renews(s: State, step: Step, id: string)
    requires id in s.rows
  {
    || (step.Heartbeat? && step.subscriberId == id)
    || (step.Message? && step.message == Beat && step.socket in s.sockets && s.sockets[step.socket].tag == id)
    || (step.FanOut? && id in step.targets)
    || (step.ProxyOAuth? && ProxiedTo(s, step) == Some(id))
    || (step.SocketGone? && step.socket in s.sockets && step.socket !in s.ignored && s.sockets[step.socket].tag == id)
    || (Purges(step) && s.rows[id].transport == Tunnel && s.rows[id].expiresAt <= step.now)
  }

  /** The row after a step that did not connect it: the same, but for a renewed lease of five minutes. */
  ghost predicate LeaseAfter(before: Row, after: Row, renewed: bool, now: int) {
    && SameIdentity(before, after)
    && after.lastHeartbeatAt == (if renewed then now else before.lastHeartbeatAt)
    && after.expiresAt == (if renewed then now + 300_000 else before.expiresAt)
  }

  // ---- after a purge ---------------------------------------------------------------------

  lemma PurgedRow(s: State, now: int, id: string)
    ensures id in KeptRows(s, now) <==> id in s.rows && !Lapses(s, id, now)
    ensures id in KeptRows(s, now) ==>
      && LeaseAfter(s.rows[id], KeptRows(s, now)[id],
                    s.rows[id].transport == Tunnel && s.rows[id].expiresAt <= now, now)
      && KeptRows(s, now)[id].expiresAt > now
  {
    if id in s.rows {
      assert Listed(s.sockets, id) <==> !Socketless(s, id);
    }
  }

  lemma {:induction false} DeliveredRows(s: State, ids: seq<string>, requestId: string, tooLarge: bool,
                                         broken: set<string>, now: int, id: string)
    ensures var d := DeliverAll(s, ids, requestId, tooLarge, broken, now);
      && (id in d.rows <==> id in s.rows)
      && (id in s.rows ==> LeaseAfter(s.rows[id], d.rows[id], id in ids, now))
    decreases |ids|
  {
    if ids != [] {
      var front, last := ids[..|ids| - 1], ids[|ids| - 1];
      DeliveredRows(s, front, requestId, tooLarge, broken, now, id);
      DeliverTables(DeliverAll(s, front, requestId, tooLarge, broken, now), last, requestId, tooLarge, broken, now);
      assert ids == front + [last];
    }
  }

  // ---- the law of rows -------------------------------------------------------------------

  /** What becomes of the subscriber's row. */
  ghost predicate RowLaw(s: State, step: Step, t: State, id: string) {
    && (id in t.rows <==> Joined(s, step) == Some(id) || (id in s.rows && !LosesRow(s, step, id)))
    && (id in t.rows && Joined(s, step) != Some(id) ==>
          LeaseAfter(s.rows[id], t.rows[id], Renews(s, step, id), step.now))
    && (Joined(s, step) == Some(id) ==> IsJoin(step) && Stores(s, step, id, t.rows[id]))
  }

  lemma JoinRowLaw(s: State, step: Step, t: State, id: string)
    requires RowsOk(s.rows, s.usedIds, s.clock) && IsJoin(step) && FreshDraw(s, step.draw) && JoinSummary(s, step, t)
    ensures RowLaw(s, step, t, id)
  {
    hide KeptRows, Lapses, Joined, JoinSummary, Stores;
    PurgedRow(s, step.now, id);
    JoinedRows(s, step, t);
    if Joined(s, step).Some? {
      JoinStores(s, step, t);
    }
  }

  lemma JoinedRows(s: State, step: Step, t: State)
    requires IsJoin(step) && JoinSummary(s, step, t)
    ensures Joined(s, step).None? ==> t.rows == if Purges(step) then KeptRows(s, step.now) else s.rows
    ensures Joined(s, step).Some? ==> Purges(step)
  {
  }

  lemma HeartbeatRowLaw(s: State, step: Step, id: string)
    requires step.Heartbeat?
    ensures RowLaw(s, step, Next(s, step), id)
  {
    hide KeptRows, Purge, CleanupAt, Lapses;
    PurgeTables(s, step.now, step.order);
    PurgedRow(s, step.now, id);
    PurgedRow(s, step.now, step.subscriberId);
  }

  lemma DroppedLapses(s: State, gone: string, now: int, id: string)
    requires id in s.rows && id != gone
    ensures id in Dropped(s, gone).rows && Dropped(s, gone).rows[id] == s.rows[id]
    ensures Lapses(Dropped(s, gone), id, now) <==> Lapses(s, id, now)
  {
    DroppedTables(s, gone);
    assert Socketless(s, id) <==> !Listed(s.sockets, id);
    assert Socketless(Dropped(s, gone), id) <==> !Listed(Dropped(s, gone).sockets, id);
  }

  lemma DeregisterRowLaw(s: State, step: Step, t: State, id: string)
    requires step.Deregister? && DepartureSummary(s, step, t)
    ensures RowLaw(s, step, t, id)
  {
    hide KeptRows, Lapses, Dropped;
    DroppedTables(s, step.subscriberId);
    PurgedRow(Dropped(s, step.subscriberId), step.now, id);
    if id in s.rows && id != step.subscriberId {
      DroppedLapses(s, step.subscriberId, step.now, id);
    }
  }

  lemma SocketGoneRowLaw(s: State, step: Step, t: State, id: string)
    requires step.SocketGone? && step.socket in s.sockets && DepartureSummary(s, step, t)
    requires step.socket !in s.ignored ==> s.sockets[step.socket].tag in s.rows
    ensures RowLaw(s, step, t, id)
  {
  }

  lemma ProxyRowLaw(s: State, step: Step, id: string)
    requires step.ProxyOAuth?
    ensures RowLaw(s, step, Next(s, step), id)
  {
    hide KeptRows, Purge, Lapses, OAuthTarget;
    var p := Purge(s, step.now, step.order);
    var target := OAuthTarget(p, step.oauthState, step.signed, step.now);
    PurgeTables(s, step.now, step.order);
    PurgedRow(s, step.now, id);
    if target.Some? {
      PurgedRow(s, step.now, target.value);
      DeliverTables(p, target.value, step.requestId, step.tooLarge, step.broken, step.now);
    }
  }

  lemma FanOutRowLaw(s: State, step: Step, id: string)
    requires step.FanOut?
    ensures RowLaw(s, step, Next(s, step), id)
  {
    hide KeptRows, Purge, Lapses, DeliverAll;
    PurgeTables(s, step.now, step.order);
    PurgedRow(s, step.now, id);
    DeliveredRows(Purge(s, step.now, step.order), step.targets, step.requestId, step.tooLarge, step.broken, step.now,
                  id);
  }

  lemma AlarmRowLaw(s: State, step: Step, id: string)
    requires step.AlarmFires?
    ensures RowLaw(s, step, Next(s, step), id)
  {
    hide CleanupAt, Lapses, Failed, StaleClosed, RemovalEvents;
    PurgedRow(s, step.now, id);
    assert KeptRows(s.(alarm := None), step.now) == KeptRows(s, step.now);
  }

  lemma BindRowLaw(s: State, step: Step, id: string)
    requires step.Bind?
    ensures RowLaw(s, step, Next(s, step), id)
  {
    hide KeptRows, Lapses, Purge;
    PurgeTables(s, step.now, step.order);
    PurgedRow(s, step.now, id);
  }

  lemma QueryRowLaw(s: State, step: Step, id: string)
    requires step.GetActive? || step.Prune? || step.CountFanout?
    ensures RowLaw(s, step, Next(s, step), id)
  {
    hide KeptRows, Lapses, Purge, Active;
    PurgeTables(s, step.now, step.order);
    PurgedRow(s, step.now, id);
  }

  lemma EventRowLaw(s: State, step: Step, id: string)
    requires LeavesRows(step)
    ensures RowLaw(s, step, Next(s, step), id)
  {
    NotJoined(s, step);
    hide Answer, TimeOut, Joined, Lapses, Stores, NextFetch, NextRegister, NextHeartbeat, NextDeregister, NextBind,
         NextPrune, NextProxy, NextSocketGone, NextAlarm, Purge, DeliverAll;
  }

  /**
   After any step, a subscriber has a row exactly if the step connected it or it had one that was neither
   deregistered, nor an anonymous tunnel's that lost its socket, nor lapsed at a purge. A row that was
   connected holds what it was connected with; any other is unchanged but for its lease, which starts
   over exactly if the step renews it.
   */
  lemma RowAfter(s: State, step: Step, id: string)
    requires Inv(s) && Enabled(s, step)
    ensures RowLaw(s, step, Next(s, step), id)
  {
    hide RowLaw, Next, Enabled, Inv, InvAt, Core;
    EnabledFacts(s, step);
    SocketHasRow(s, step);
    InvReferences(s);
    if IsJoin(step) || step.Deregister? || step.SocketGone? {
      StepSummary(s, step);
      if IsJoin(step) {
        SummaryOfJoin(s, step, Next(s, step));
        JoinRowLaw(s, step, Next(s, step), id);
      } else {
        SummaryOfDeparture(s, step, Next(s, step));
        if step.Deregister? {
          DeregisterRowLaw(s, step, Next(s, step), id);
        } else {
          SocketGoneRowLaw(s, step, Next(s, step), id);
        }
      }
    } else {
      RestRowLaw(s, step, id);
    }
  }

  lemma SocketHasRow(s: State, step: Step)
    requires Inv(s)
    ensures step.SocketGone? && step.socket in s.sockets && step.socket !in s.ignored ==>
      s.sockets[step.socket].tag in s.rows
  {
  }

  lemma RestRowLaw(s: State, step: Step, id: string)
    requires !IsJoin(step) && !step.Deregister? && !step.SocketGone?
    ensures RowLaw(s, step, Next(s, step), id)
  {
    hide RowLaw, Next;
    match step
    case Heartbeat(_, _, _) => HeartbeatRowLaw(s, step, id);
    case Bind(_, _, _, _) => BindRowLaw(s, step, id);
    case FanOut(_, _, _, _, _, _, _, _) => FanOutRowLaw(s, step, id);
    case ProxyOAuth(_, _, _, _, _, _, _) => ProxyRowLaw(s, step, id);
    case AlarmFires(_, _) => AlarmRowLaw(s, step, id);
    case GetActive(_, _) => QueryRowLaw(s, step, id);
    case Prune(_, _) => QueryRowLaw(s, step, id);
    case CountFanout(_, _) => QueryRowLaw(s, step, id);
    case _ => EventRowLaw(s, step, id);
  }

  // ---- who joins ---------------------------------------------------------------------------

  /** The subscriber holds the environment that the join names, and its row outlives the join's purge. */
  ghost predicate Holds(s: State, step: Step, id: string)
    requires IsJoin(step)
  {
    && Purges(step) && EnvironmentGiven(step) != ""
    && id in s.rows && !Lapses(s, id, step.now) && s.rows[id].environmentId == Some(EnvironmentGiven(step))
  }

  /**
   Whom a join connects. The holder of the environment it names, unless that one is public or has a socket
   and the join does not present its token; a new subscriber when nobody holds it; nobody when the
   environment id is malformed.
   */
  lemma JoinedIff(s: State, step: Step, id: string)
    requires Inv(s) && Enabled(s, step) && IsJoin(step)
    ensures Holds(s, step, id) ==>
      Joined(s, step) ==
        if (s.rows[id].transport == Public || !Socketless(s, id)) && s.rows[id].tokenHash != Sha256(step.presented) then
          None
        else Some(id)
    ensures (forall other :: !Holds(s, step, other)) ==>
      Joined(s, step) == if Purges(step) then Some(step.draw.subscriberId) else None
  {
    hide Purge, KeptRows, Lapses, Enabled, Inv;
    if Purges(step) {
      var w := WelcomedBy(s, step);
      PurgedRow(s, step.now, id);
      WelcomedTables(s, step.now, step.routeId, step.order);
      WelcomedSockets(s, step.now, step.routeId, step.order, id);
      if HasEnvironment(w.rows, JoinOf(step).environmentId) {
        var owner := EnvironmentOwner(w.rows, JoinOf(step).environmentId);
        PurgedRow(s, step.now, owner);
        assert Holds(s, step, owner);
        if Holds(s, step, id) {
          EnvironmentIsHeldOnce(s, id, owner);
        }
      }
      if Holds(s, step, id) {
        assert id in w.rows && w.rows[id].environmentId == JoinOf(step).environmentId;
      }
    }
  }

  lemma EnvironmentIsHeldOnce(s: State, a: string, b: string)
    requires Inv(s) && a in s.rows && b in s.rows
    requires s.rows[a].environmentId.Some? && s.rows[a].environmentId == s.rows[b].environmentId
    ensures a == b
  {
  }

  lemma WelcomedSockets(s: State, now: int, routeId: string, order: seq<string>, id: string)
    ensures Listed(Welcomed(s, now, routeId, order).sockets, id) <==> !Socketless(s, id)
  {
    StaleKeepsTags(s.sockets, s.ignored, KeptRows(s, now), now, id);
    assert Listed(s.sockets, id) <==> !Socketless(s, id);
  }

  // ---- the law of bindings -------------------------------------------------------------------

  /** The bind is in order and its subscriber has a row. */
  ghost predicate Binds(step: Step, t: State, st: string) {
    step.Bind? && step.boundState == st && Purges(step) && step.subscriberId in t.rows
  }

  ghost predicate BindingLaw(s: State, step: Step, t: State, st: string) {
    && (st in t.bindings <==>
          || Binds(step, t, st)
          || (st in s.bindings && s.bindings[st].subscriberId in t.rows
              && !(Purges(step) && s.bindings[st].expiresAt <= step.now)))
    && (st in t.bindings ==>
          t.bindings[st] == if Binds(step, t, st) then Binding(step.subscriberId, step.now + 900_000)
                            else s.bindings[st])
  }

  lemma DeregisterBindingLaw(s: State, step: Step, t: State, st: string)
    requires step.Deregister? && DepartureSummary(s, step, t) && BindingsOk(s.bindings, s.rows)
    ensures BindingLaw(s, step, t, st)
  {
    hide Dropped;
    DroppedTables(s, step.subscriberId);
  }

  lemma SocketGoneBindingLaw(s: State, step: Step, t: State, st: string)
    requires step.SocketGone? && step.socket in s.sockets && DepartureSummary(s, step, t)
    requires BindingsOk(s.bindings, s.rows)
    ensures BindingLaw(s, step, t, st)
  {
  }

  lemma PurgedBinding(s: State, now: int, st: string)
    ensures st in KeptBindings(s, now) <==>
      st in s.bindings && s.bindings[st].expiresAt > now && s.bindings[st].subscriberId in KeptRows(s, now)
    ensures st in KeptBindings(s, now) ==> KeptBindings(s, now)[st] == s.bindings[st]
  {
  }

  lemma JoinBindingLaw(s: State, step: Step, t: State, st: string)
    requires RowsOk(s.rows, s.usedIds, s.clock) && BindingsOk(s.bindings, s.rows)
    requires IsJoin(step) && FreshDraw(s, step.draw) && JoinSummary(s, step, t)
    ensures BindingLaw(s, step, t, st)
  {
    hide KeptRows, Joined, Stores, JoinedRow, JoinedId, KeptBindings;
    PurgedBinding(s, step.now, st);
    JoinedRows(s, step, t);
    if Joined(s, step).Some? {
      JoinStores(s, step, t);
      JoinedWasUsed(s, step, t);
    }
  }

  /** The joined row is a kept one or that of a subscriber never seen before. */
  lemma JoinedWasUsed(s: State, step: Step, t: State)
    requires RowsOk(s.rows, s.usedIds, s.clock) && IsJoin(step) && FreshDraw(s, step.draw)
    requires JoinSummary(s, step, t) && Joined(s, step).Some?
    ensures Joined(s, step).value in s.usedIds ==> Joined(s, step).value in KeptRows(s, step.now)
    ensures Joined(s, step).value !in s.usedIds ==> Joined(s, step).value !in s.rows
  {
    hide Joined, JoinSummary, KeptRows;
    JoinStores(s, step, t);
  }

  lemma BindBindingLaw(s: State, step: Step, st: string)
    requires step.Bind? && BindingsOk(s.bindings, s.rows)
    ensures BindingLaw(s, step, Next(s, step), st)
  {
    hide KeptRows, KeptBindings, Purge;
    PurgedBinding(s, step.now, st);
    PurgeTables(s, step.now, step.order);
  }

  lemma RestBindingLaw(s: State, step: Step, t: State, st: string)
    requires Summary(s, step, t) && !IsJoin(step) && !step.Deregister? && !step.SocketGone? && !step.Bind?
    requires BindingsOk(s.bindings, s.rows)
    ensures BindingLaw(s, step, t, st)
  {
    hide KeptRows, KeptBindings, Leased;
    PurgedBinding(s, step.now, st);
    LeasedKeys(KeptRows(s, step.now), t.rows);
    LeasedKeys(s.rows, t.rows);
  }

  /**
   After any step, a state is bound exactly if the step bound it, or it was bound before, its subscriber
   still has a row, and no purge found it expired. A new binding lasts fifteen minutes; the others are as
   they were.
   */
  lemma BindingAfter(s: State, step: Step, st: string)
    requires Inv(s) && Enabled(s, step)
    ensures BindingLaw(s, step, Next(s, step), st)
  {
    hide BindingLaw, Next, Enabled, Inv, Summary;
    EnabledFacts(s, step);
    InvReferences(s);
    if step.Bind? {
      BindBindingLaw(s, step, st);
    } else {
      StepSummary(s, step);
      SummaryBindingLaw(s, step, Next(s, step), st);
    }
  }

  lemma SummaryBindingLaw(s: State, step: Step, t: State, st: string)
    requires RowsOk(s.rows, s.usedIds, s.clock) && BindingsOk(s.bindings, s.rows) && Summary(s, step, t)
    requires IsJoin(step) ==> FreshDraw(s, step.draw)
    requires step.SocketGone? ==> step.socket in s.sockets
    requires !step.Bind?
    ensures BindingLaw(s, step, t, st)
  {
    hide BindingLaw, Summary, RowsOk, BindingsOk, FreshDraw;
    if IsJoin(step) {
      SummaryOfJoin(s, step, t);
      JoinBindingLaw(s, step, t, st);
    } else if step.Deregister? {
      SummaryOfDeparture(s, step, t);
      DeregisterBindingLaw(s, step, t, st);
    } else if step.SocketGone? {
      SummaryOfDeparture(s, step, t);
      SocketGoneBindingLaw(s, step, t, st);
    } else {
      RestBindingLaw(s, step, t, st);
    }
  }

  // ---- the lease over runs ---------------------------------------------------------------------

  /** The last time the run connected the subscriber or renewed its lease. */
  ghost function LatestRenewal(s: State, steps: seq<Step>, id: string): Option<int>
    decreases |steps|
  {
    if steps == [] then None
    else
      var later := LatestRenewal(Next(s, steps[0]), steps[1..], id);
      if later.Some? then later
      else if Joined(s, steps[0]) == Some(id) || (id in s.rows && Renews(s, steps[0], id)) then Some(steps[0].now)
      else None
  }

  /** A row's lease ends five minutes after the subscriber was last connected or renewed, in every run. */
  lemma {:induction false} LeaseIsLatestRenewal(s: State, steps: seq<Step>, id: string)
    requires Inv(s) && Runs(s, steps) && id in After(s, steps).rows
    ensures var row := After(s, steps).rows[id];
      match LatestRenewal(s, steps, id)
      case Some(at) => row.lastHeartbeatAt == at && row.expiresAt == at + 300_000
      case None =>
        id in s.rows && row.lastHeartbeatAt == s.rows[id].lastHeartbeatAt && row.expiresAt == s.rows[id].expiresAt
    decreases |steps|
  {
    hide Core, InvAt, Inv, Next, Joined, Renews, Enabled, LosesRow, ConnectedBy, KeptRows;
    if steps != [] {
      StepKeeps(s, steps[0]);
      LeaseIsLatestRenewal(Next(s, steps[0]), steps[1..], id);
      RowAfter(s, steps[0], id);
    }
  }
}
