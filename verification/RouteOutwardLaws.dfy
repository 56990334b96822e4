/**
 When a step wakes the object next, and what it leaves in the router index, told on the tables alone.
 */
module RouteOutwardLaws {
  import opened Wrappers
  import opened Minimum
  import opened RouteState
  import opened RouteSteps
  import opened RouteInvariant
  import opened RouteDetach
  import opened RouteCarry
  import opened RoutePrimitives
  import opened RouteReachable
  import opened RouteRowLaws
  import opened RouteSocketLaws

  // ---- the alarm ---------------------------------------------------------------------------------

  ghost predicate SomeTunnel(rows: map<string, Row>) {
    exists id :: id in rows && rows[id].transport == Tunnel
  }

  /**
   The alarm that a table needs at `now`: at the first end of a lease, within thirty seconds while there is
   a tunnel to probe, never less than a second ahead, and no earlier than one of these asks for.
   */
  ghost predicate WakesFor(rows: map<string, Row>, alarm: Option<int>, now: int) {
    && (alarm.None? <==> rows == map[])
    && (alarm.Some? ==>
          && now + 1_000 <= alarm.value
          && (forall id :: id in rows ==> alarm.value <= rows[id].expiresAt || alarm.value == now + 1_000)
          && (SomeTunnel(rows) ==> alarm.value <= now + 30_000)
          && ((SomeTunnel(rows) && alarm.value == now + 30_000)
              || exists id :: id in rows && (rows[id].expiresAt == alarm.value
                                             || (rows[id].expiresAt < alarm.value && alarm.value == now + 1_000))))
  }

  lemma CleanupWakes(rows: map<string, Row>, now: int)
    requires now >= 0 && forall id :: id in rows ==> rows[id].expiresAt > 0
    ensures WakesFor(rows, CleanupAt(rows, now), now)
  {
    assert SomeTunnel(rows) <==> HasTunnelRow(rows);
    if rows != map[] {
      var some :| some in rows;
      assert rows[some].expiresAt in Expiries(rows);
      var first := MinOf(Expiries(rows));
      assert FirstExpiry(rows) == Some(first);
      var who :| who in rows && rows[who].expiresAt == first;
      forall id | id in rows ensures first <= rows[id].expiresAt {
        assert rows[id].expiresAt in Expiries(rows);
      }
    }
  }

  /** Steps that set the alarm anew. */
  ghost predicate Reschedules(s: State, step: Step, t: State) {
    || step.AlarmFires? || step.Deregister?
    || (step.Register? && Joined(s, step).Some?)
    || (step.Heartbeat? && step.subscriberId in t.rows)
    || (step.SocketGone? && step.socket in s.sockets && step.socket !in s.ignored
        && s.sockets[step.socket].tag in t.rows)
  }

  ghost predicate AlarmLaw(s: State, step: Step, t: State) {
    if Reschedules(s, step, t) then WakesFor(t.rows, t.alarm, step.now) else t.alarm == s.alarm
  }

  ghost predicate AlarmIsCleanup(s: State, step: Step, t: State) {
    t.alarm == if Reschedules(s, step, t) then CleanupAt(t.rows, step.now) else s.alarm
  }

  lemma PurgeAlarm(s: State, now: int, order: seq<string>)
    ensures Purge(s, now, order).alarm == s.alarm
  {
  }

  lemma AttachAlarm(s: State, j: Join, draw: Draw, now: int)
    ensures Attach(s, j, draw, now).alarm == s.alarm
  {
  }

  lemma JoinAlarm(s: State, step: Step)
    requires IsJoin(step)
    ensures AlarmIsCleanup(s, step, Next(s, step))
  {
    hide Purge, Attach, IsRejected, JoinedId, CleanupAt, KeptRows;
    PurgeAlarm(s, step.now, step.order);
    AttachAlarm(WelcomedBy(s, step), JoinOf(step), step.draw, step.now);
    if step.Fetch? {
      UpgradeAlarm(s, step);
    }
  }

  lemma UpgradeAlarm(s: State, step: Step)
    requires step.Fetch?
    requires Attach(WelcomedBy(s, step), JoinOf(step), step.draw, step.now).alarm == WelcomedBy(s, step).alarm
    ensures Next(s, step).alarm == if Refused(step) then s.alarm else WelcomedBy(s, step).alarm
  {
    hide Welcomed, Attach, IsRejected, JoinedId;
  }

  lemma HeartbeatAlarm(s: State, step: Step)
    requires step.Heartbeat?
    ensures AlarmIsCleanup(s, step, Next(s, step))
  {
    hide Purge, CleanupAt, KeptRows;
    PurgeAlarm(s, step.now, step.order);
    PurgeTables(s, step.now, step.order);
    PurgedRow(s, step.now, step.subscriberId);
  }

  lemma NothingToWakeFor(now: int)
    ensures CleanupAt(map[], now) == None
  {
  }

  lemma DeregisterAlarm(s: State, step: Step)
    requires step.Deregister?
    ensures AlarmIsCleanup(s, step, Next(s, step))
  {
    hide Purge, Dropped, CleanupAt;
    NothingToWakeFor(step.now);
  }

  lemma SocketGoneAlarm(s: State, step: Step)
    requires step.SocketGone? && step.socket in s.sockets
    requires step.socket !in s.ignored ==> s.sockets[step.socket].tag in s.rows
    ensures AlarmIsCleanup(s, step, Next(s, step))
  {
    hide Failed, CleanupAt, BindingsWithout;
    DetachCases(s, step.now, step.socket, step.stale);
  }

  lemma AlarmAlarm(s: State, step: Step)
    requires step.AlarmFires?
    ensures AlarmIsCleanup(s, step, Next(s, step))
  {
    hide Purge, CleanupAt;
  }

  lemma {:induction false} FanOutAlarm(s: State, ids: seq<string>, requestId: string, tooLarge: bool,
                                       broken: set<string>, now: int)
    ensures DeliverAll(s, ids, requestId, tooLarge, broken, now).alarm == s.alarm
    decreases |ids|
  {
    hide Sending;
    if ids != [] {
      FanOutAlarm(s, ids[..|ids| - 1], requestId, tooLarge, broken, now);
    }
  }

  lemma RestAlarm(s: State, step: Step)
    requires !IsJoin(step) && !step.Heartbeat? && !step.Deregister? && !step.SocketGone? && !step.AlarmFires?
    ensures AlarmIsCleanup(s, step, Next(s, step))
  {
    hide Purge, DeliverAll, OAuthTarget, Active, Answer, TimeOut, Sending;
    if Purges(step) {
      PurgeAlarm(s, step.now, step.order);
      if step.FanOut? {
        FanOutAlarm(Purge(s, step.now, step.order), step.targets, step.requestId, step.tooLarge, step.broken, step.now);
      }
    }
  }

  lemma StepAlarm(s: State, step: Step)
    requires Inv(s) && Enabled(s, step)
    ensures AlarmIsCleanup(s, step, Next(s, step))
  {
    SocketHasRow(s, step);
    EnabledFacts(s, step);
    hide Inv, Enabled, Next, AlarmIsCleanup;
    if IsJoin(step) {
      JoinAlarm(s, step);
    } else if step.Heartbeat? {
      HeartbeatAlarm(s, step);
    } else if step.Deregister? {
      DeregisterAlarm(s, step);
    } else if step.SocketGone? {
      SocketGoneAlarm(s, step);
    } else if step.AlarmFires? {
      AlarmAlarm(s, step);
    } else {
      RestAlarm(s, step);
    }
  }

  /** A step leaves the alarm as it was, or sets exactly the one that the table it leaves needs. */
  lemma AlarmAfter(s: State, step: Step)
    requires Inv(s) && Enabled(s, step)
    ensures AlarmLaw(s, step, Next(s, step))
  {
    StepAlarm(s, step);
    StepKeeps(s, step);
    LeasesArePositive(Next(s, step));
    EnabledFacts(s, step);
    ClockIsNow(s, step);
    hide Inv, Enabled, Next, Reschedules, CleanupAt, WakesFor;
    CleanupWakes(Next(s, step).rows, step.now);
  }

  lemma LeasesArePositive(s: State)
    requires Inv(s)
    ensures s.clock >= 0 && forall id :: id in s.rows ==> s.rows[id].expiresAt > 0
  {
  }

  /**
   Every alarm probes: the OPEN sockets it leaves were heard from within 90 seconds, and while there is a
   tunnel it fires again within thirty.
   */
  lemma AlarmProbes(s: State, step: Step, w: nat)
    requires Inv(s) && Enabled(s, step) && step.AlarmFires?
    requires w in Next(s, step).sockets && Next(s, step).sockets[w].open
    ensures var t := Next(s, step);
      && HeardSince(t, w, step.now - 90_000)
      && t.alarm.Some? && t.alarm.value <= step.now + 30_000
  {
    var t := Next(s, step);
    AlarmOpens(s, step, w);
    StepKeeps(s, step);
    OpenHasRow(t, w);
    OpenHasRow(s, w);
    LeaseOf(s, s.sockets[w].tag);
    AlarmRenewsExpired(s, step, s.sockets[w].tag);
    NotJoined(s, step);
    hide *;
    EnabledFacts(s, step);
    SocketAfter(s, step, w);
    AlarmAfter(s, step);
    RowAfter(s, step, s.sockets[w].tag);
    ProbedAfter(s, step, t, w);
  }

  lemma AlarmOpens(s: State, step: Step, w: nat)
    requires Inv(s) && Enabled(s, step) && step.AlarmFires? && w in Next(s, step).sockets
    ensures w in s.sockets && Next(s, step).sockets[w].tag == s.sockets[w].tag
    ensures Next(s, step).sockets[w].open ==> s.sockets[w].open
  {
    NotJoined(s, step);
    hide Inv, Enabled, Next, Joined, Closes;
    SocketAfter(s, step, w);
  }

  lemma ProbedAfter(s: State, step: Step, t: State, w: nat)
    requires step.AlarmFires? && Joined(s, step).None? && w in s.sockets && w in t.sockets && t.sockets[w].open
    requires s.sockets[w].open && t.sockets[w].tag == s.sockets[w].tag
    requires var id := s.sockets[w].tag;
      && id in s.rows && s.rows[id].transport == Tunnel && id in t.rows && t.rows[id].transport == Tunnel
      && (Renews(s, step, id) <==> s.rows[id].expiresAt <= step.now)
      && RowLaw(s, step, t, id)
    requires SocketLaw(s, step, t, w) && AlarmLaw(s, step, t)
    ensures HeardSince(t, w, step.now - 90_000)
    ensures t.alarm.Some? && t.alarm.value <= step.now + 30_000
  {
    hide Joined, Renews, Stores, LosesRow;
    assert SomeTunnel(t.rows);
  }

  lemma AlarmRenewsExpired(s: State, step: Step, id: string)
    requires step.AlarmFires? && id in s.rows && s.rows[id].transport == Tunnel
    ensures Renews(s, step, id) <==> s.rows[id].expiresAt <= step.now
  {
  }

  /** Steps that never set an alarm: upgrades above all. */
  ghost predicate SetsNoAlarm(steps: seq<Step>) {
    forall i :: 0 <= i < |steps| ==>
      !steps[i].Register? && !steps[i].Heartbeat? && !steps[i].Deregister? && !steps[i].SocketGone?
  }

  /** An object whose subscribers only ever upgrade to tunnels has no alarm, and so nothing probes them. */
  lemma {:induction false} UpgradesSetNoAlarm(s: State, steps: seq<Step>)
    requires Inv(s) && Runs(s, steps) && s.alarm.None? && SetsNoAlarm(steps)
    ensures After(s, steps).alarm.None?
    decreases |steps|
  {
    hide Inv, Next;
    if steps != [] {
      AlarmAfter(s, steps[0]);
      StepKeeps(s, steps[0]);
      AlarmNeedsAlarm(s, steps[0]);
      UpgradesSetNoAlarm(Next(s, steps[0]), steps[1..]);
    }
  }

  lemma AlarmNeedsAlarm(s: State, step: Step)
    requires Enabled(s, step)
    ensures step.AlarmFires? ==> s.alarm.Some?
  {
  }

  // ---- the index entry -----------------------------------------------------------------------------

  /** Steps that make the index agree with the table. */
  ghost predicate Syncs(s: State, step: Step) {
    || Joined(s, step).Some? || step.AlarmFires? || (step.Deregister? && s.routeId.Some?)
    || (step.SocketGone? && step.socket !in s.ignored)
  }

  /** Someone is active: public, with an OPEN socket, or an environment's tunnel even while parked. */
  ghost predicate SomeoneActive(s: State) {
    exists id :: id in s.rows &&
      (s.rows[id].transport == Public || Listens(s, id) || s.rows[id].environmentId.Some?)
  }

  ghost predicate Listens(s: State, id: string) {
    exists w :: w in s.sockets && s.sockets[w].tag == id && s.sockets[w].open
  }

  ghost predicate IndexLaw(s: State, step: Step, t: State) {
    && (t.indexed <==>
          if Syncs(s, step) then t.rows != map[]
          else if step.Prune? then s.indexed && SomeoneActive(t)
          else if step.AddToIndex? then true
          else s.indexed)
    && t.routeId == if IsJoin(step) && Purges(step) then Some(step.routeId) else s.routeId
  }

  lemma PurgeEntry(s: State, now: int, order: seq<string>)
    ensures var p := Purge(s, now, order);
      p.indexed == s.indexed && p.routeId == s.routeId
  {
  }

  lemma AttachEntry(s: State, j: Join, draw: Draw, now: int)
    ensures var a := Attach(s, j, draw, now);
      a.indexed == s.indexed && a.routeId == s.routeId
  {
  }

  lemma JoinIndexLaw(s: State, step: Step)
    requires IsJoin(step)
    ensures IndexLaw(s, step, Next(s, step))
  {
    hide Purge, Attach, IsRejected, JoinedId, CleanupAt, KeptRows, SomeoneActive;
    PurgeEntry(s, step.now, step.order);
    AttachEntry(WelcomedBy(s, step), JoinOf(step), step.draw, step.now);
  }

  lemma DroppedEntry(s: State, id: string)
    ensures Dropped(s, id).indexed == s.indexed && Dropped(s, id).routeId == s.routeId
  {
  }

  lemma DeregisterIndexLaw(s: State, step: Step)
    requires step.Deregister?
    ensures IndexLaw(s, step, Next(s, step))
  {
    NotJoined(s, step);
    hide Purge, Dropped, CleanupAt, SomeoneActive, Joined;
    DroppedEntry(s, step.subscriberId);
    PurgeEntry(Dropped(s, step.subscriberId), step.now, step.order);
  }

  lemma SocketGoneIndexLaw(s: State, step: Step)
    requires step.SocketGone? && step.socket in s.sockets
    requires step.socket !in s.ignored ==> s.sockets[step.socket].tag in s.rows && s.routeId.Some?
    ensures IndexLaw(s, step, Next(s, step))
  {
    hide Failed, CleanupAt, BindingsWithout, SomeoneActive;
    DetachCases(s, step.now, step.socket, step.stale);
  }

  lemma AlarmIndexLaw(s: State, step: Step)
    requires step.AlarmFires? && s.routeId.Some?
    ensures IndexLaw(s, step, Next(s, step))
  {
    hide Purge, CleanupAt, SomeoneActive;
    PurgeEntry(s.(alarm := None), step.now, step.order);
  }

  lemma PruneIndexLaw(s: State, step: Step)
    requires step.Prune?
    ensures IndexLaw(s, step, Next(s, step))
  {
    hide Purge;
    PurgeEntry(s, step.now, step.order);
    var t := Next(s, step);
    forall id ensures Listens(t, id) <==> HasOpen(t.sockets, id) {
    }
    var p := Flush(Purge(s, step.now, step.order));
    assert SomeoneActive(t) <==> Active(p) != {} by {
      if SomeoneActive(t) {
        var id :| id in t.rows && (t.rows[id].transport == Public || Listens(t, id) || t.rows[id].environmentId.Some?);
        assert id in Active(p);
      }
      if Active(p) != {} {
        var id :| id in Active(p);
        assert id in t.rows && (t.rows[id].transport == Public || Listens(t, id) || t.rows[id].environmentId.Some?);
      }
    }
  }

  lemma {:induction false} FanOutEntry(s: State, ids: seq<string>, requestId: string, tooLarge: bool,
                                       broken: set<string>, now: int)
    ensures var d := DeliverAll(s, ids, requestId, tooLarge, broken, now);
      d.indexed == s.indexed && d.routeId == s.routeId
    decreases |ids|
  {
    hide Sending;
    if ids != [] {
      FanOutEntry(s, ids[..|ids| - 1], requestId, tooLarge, broken, now);
    }
  }

  lemma HeartbeatEntry(s: State, step: Step)
    ensures step.Heartbeat? ==>
      var n := NextHeartbeat(s, step.now, step.subscriberId, step.order);
      n.indexed == s.indexed && n.routeId == s.routeId
  {
    hide Purge, CleanupAt;
    if step.Heartbeat? {
      PurgeEntry(s, step.now, step.order);
    }
  }

  lemma RestIndexLaw(s: State, step: Step)
    requires !IsJoin(step) && !step.Deregister? && !step.SocketGone? && !step.AlarmFires? && !step.Prune?
    ensures IndexLaw(s, step, Next(s, step))
  {
    NotJoined(s, step);
    HeartbeatEntry(s, step);
    hide Purge, DeliverAll, OAuthTarget, Answer, TimeOut, Sending, CleanupAt, Joined, SomeoneActive,
         NextFetch, NextRegister, NextHeartbeat, NextDeregister, NextSocketGone, NextAlarm;
    if Purges(step) {
      PurgeEntry(s, step.now, step.order);
      if step.FanOut? {
        FanOutEntry(Purge(s, step.now, step.order), step.targets, step.requestId, step.tooLarge, step.broken, step.now);
      }
    }
  }

  lemma RouteIdIsKnown(s: State, step: Step)
    requires Inv(s) && Enabled(s, step)
    ensures step.AlarmFires? ==> s.routeId.Some?
    ensures step.SocketGone? && step.socket !in s.ignored ==> s.routeId.Some?
  {
    hide Removed;
    SocketHasRow(s, step);
  }

  /** A step leaves the route's index entry as it was, or makes it say what the table it leaves says. */
  lemma IndexAfter(s: State, step: Step)
    requires Inv(s) && Enabled(s, step)
    ensures IndexLaw(s, step, Next(s, step))
  {
    RouteIdIsKnown(s, step);
    SocketHasRow(s, step);
    EnabledFacts(s, step);
    hide Inv, Enabled, Next, IndexLaw;
    if IsJoin(step) {
      JoinIndexLaw(s, step);
    } else if step.Deregister? {
      DeregisterIndexLaw(s, step);
    } else if step.SocketGone? {
      SocketGoneIndexLaw(s, step);
    } else if step.AlarmFires? {
      AlarmIndexLaw(s, step);
    } else if step.Prune? {
      PruneIndexLaw(s, step);
    } else {
      RestIndexLaw(s, step);
    }
  }
}
