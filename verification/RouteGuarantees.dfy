/** What a per-route object guarantees in every reachable state and for single requests. */
module RouteGuarantees {
  import opened Wrappers
  import opened RouteState
  import opened RouteSteps
  import opened RouteInvariant
  import opened RoutePrimitives
  import opened RouteCarry
  import opened RouteReachable
  import opened RouteRuns
  import WebhookPathFilter

  // ---- the audit log ---------------------------------------------------------------

  /** Replaying the whole audit log gives the live set. */
  lemma AuditReplay(s: State, id: string)
    requires Reachable(s)
    ensures LastAction(History(s), id) == Some(Connected) <==> InLiveSet(s.rows, s.sockets, s.ignored, id)
  {
    ReachableInv(s);
  }

  /** Without a `disconnected` in between, a `connected` subscriber stays connected in the log. */
  lemma {:induction false} StaysConnected(events: seq<Event>, i: nat, j: nat, id: string)
    requires i < j <= |events| && events[i].action == Connected && events[i].subscriberId == id
    requires forall k :: i < k < j ==> !(events[k].subscriberId == id && events[k].action == Disconnected)
    ensures LastAction(events[..j], id) == Some(Connected)
    decreases j
  {
    assert events[..j] == events[..j - 1] + [events[j - 1]];
    LastActionAppend(events[..j - 1], events[j - 1], id);
    if i < j - 1 {
      StaysConnected(events, i, j - 1, id);
    }
  }

  predicate Leaves(e: Event, id: string) {
    e.action == Disconnected && e.subscriberId == id
  }

  /** Between two `connected` events of a subscriber there is always a `disconnected`. */
  lemma ConnectsAlternate(s: State, i: nat, j: nat)
    requires Reachable(s) && i < j < |History(s)|
    requires History(s)[i].action == Connected && History(s)[j].action == Connected
    requires History(s)[i].subscriberId == History(s)[j].subscriberId
    ensures exists k :: i < k < j && Leaves(History(s)[k], History(s)[i].subscriberId)
  {
    ReachableInv(s);
    if !exists k :: i < k < j && Leaves(History(s)[k], History(s)[i].subscriberId) {
      StaysConnected(History(s), i, j, History(s)[i].subscriberId);
      assert false;
    }
  }

  // ---- the joint invariant, spelled out ----------------------------------------------

  lemma OneRowPerEnvironment(s: State, a: string, b: string)
    requires Reachable(s) && a in s.rows && b in s.rows
    requires s.rows[a].environmentId.Some? && s.rows[a].environmentId == s.rows[b].environmentId
    ensures a == b
  {
    ReachableInv(s);
  }

  lemma OneOpenSocket(s: State, v: nat, w: nat)
    requires Reachable(s) && v in s.sockets && w in s.sockets && s.sockets[v].open && s.sockets[w].open
    ensures s.sockets[v].tag in s.rows && s.rows[s.sockets[v].tag].transport == Tunnel
    ensures s.sockets[v].tag == s.sockets[w].tag ==> v == w
  {
    ReachableInv(s);
  }

  lemma NoDanglingReferences(s: State)
    requires Reachable(s)
    ensures forall st :: st in s.bindings ==> s.bindings[st].subscriberId in s.rows
    ensures forall k :: k in s.requests.pending ==>
      s.requests.pending[k].subscriberId in s.rows && s.rows[s.requests.pending[k].subscriberId].transport == Tunnel
    ensures forall id :: id in s.rows ==> s.rows[id].expiresAt == s.rows[id].lastHeartbeatAt + SUBSCRIBER_TTL_MS
  {
    ReachableInv(s);
  }

  /**
   Every public row and every parked tunnel row has an alarm no later than its expiry, or a second after
   the last scheduling.
   */
  lemma AlarmCoverage(s: State, id: string)
    requires Reachable(s) && id in s.rows
    requires s.rows[id].transport == Public || !HasCurrent(s.sockets, s.ignored, id)
    ensures s.alarm.Some?
    ensures s.alarm.value <= s.rows[id].expiresAt || s.alarm.value <= s.scheduledAt + CLEANUP_MIN_DELAY_MS
  {
    ReachableInv(s);
    assert NeedsAlarm(s.rows, s.sockets, s.ignored, id);
  }

  /** When the alarm fires at or after a public row's expiry, the row is gone. */
  lemma AlarmCollects(s: State, step: Step, id: string)
    requires Inv(s) && Enabled(s, step) && step.AlarmFires? && id in s.rows
    requires s.rows[id].expiresAt <= step.now && !Listed(s.sockets, id)
    ensures id !in Next(s, step).rows
  {
    StepSummary(s, step);
  }

  /** Right after the alarm handler the route is indexed exactly when it has rows. */
  lemma AlarmMakesIndexExact(s: State, step: Step)
    requires Inv(s) && Enabled(s, step) && step.AlarmFires?
    ensures Next(s, step).indexed <==> Next(s, step).rows != map[]
  {
  }

  // ---- purging -----------------------------------------------------------------------

  lemma NothingRemovedTwice(s: State, now: int, order: seq<string>)
    requires InvAt(s, now)
    ensures Removed(Purge(s, now, order), now) == {}
    ensures KeptRows(Purge(s, now, order), now) == Purge(s, now, order).rows
  {
    var p := Purge(s, now, order);
    forall id ensures Listed(p.sockets, id) <==> Listed(s.sockets, id) {
      StaleKeepsTags(s.sockets, s.ignored, p.rows, now, id);
    }
  }

  lemma FailingNobody(r: Requests, o: Outcome)
    ensures Failed(r, {}, o) == r
  {
    assert PromisesOf(r.pending, {}) == {};
  }

  lemma BindingsKeptTwice(s: State, now: int, order: seq<string>)
    requires InvAt(s, now)
    ensures KeptBindings(Purge(s, now, order), now) == Purge(s, now, order).bindings
  {
    NothingRemovedTwice(s, now, order);
  }

  lemma StaleClosedTwice(sockets: map<nat, Socket>, rows: map<string, Row>, now: int)
    ensures StaleClosed(StaleClosed(sockets, rows, now), rows, now) == StaleClosed(sockets, rows, now)
  {
  }

  /** A second purge at the same time changes nothing at all. */
  lemma PurgeIdempotent(s: State, now: int, order: seq<string>)
    requires InvAt(s, now)
    ensures Purge(Purge(s, now, order), now, []) == Purge(s, now, order)
  {
    var p := Purge(s, now, order);
    NothingRemovedTwice(s, now, order);
    BindingsKeptTwice(s, now, order);
    FailingNobody(p.requests, SubscriberGone("tunnel_disconnected"));
    StaleClosedTwice(s.sockets, KeptRows(s, now), now);
    assert p.queued + RemovalEvents(p.rows, [], now) == p.queued;
    hide InvAt, KeptRows, KeptBindings, Removed, StaleClosed, RemovalEvents, Failed;
  }

  /** After a purge every OPEN tunnel socket was heard from within the stale limit. */
  lemma PurgeLeavesNoStaleSocket(s: State, now: int, order: seq<string>, socket: nat)
    requires InvAt(s, now) && Enumerates(order, Removed(s, now))
    requires socket in Purge(s, now, order).sockets && Purge(s, now, order).sockets[socket].open
    ensures var p := Purge(s, now, order);
      && p.sockets[socket].tag in p.rows
      && (|| p.rows[p.sockets[socket].tag].lastHeartbeatAt >= now - 90_000
          || (p.sockets[socket].lastPing.Some? && p.sockets[socket].lastPing.value >= now - 90_000))
  {
    PurgeKeeps(s, now, order);
  }

  // ---- OAuth correlation -------------------------------------------------------------

  /** The clock has passed every step of a run. */
  lemma {:induction false} ClockCovers(s: State, steps: seq<Step>)
    requires Runs(s, steps)
    ensures s.clock <= After(s, steps).clock
    ensures forall i :: 0 <= i < |steps| ==> steps[i].now <= After(s, steps).clock
    decreases |steps|
  {
    if steps != [] {
      ClockCovers(Next(s, steps[0]), steps[1..]);
    }
  }

  /** An OAuth target is always deliverable, and a signed state reaches its own subscriber or nobody. */
  lemma TargetIsDeliverable(s: State, state: Option<string>, signed: Option<Signed>, now: int)
    ensures var target := OAuthTarget(s, state, signed, now);
      && (target.Some? ==> target.value in Deliverable(s))
      && (signed.Some? && state.Some? && state.value != "" && target.Some? ==> target.value == signed.value.sub)
  {
  }

  /** The callback carries no state, or one that is neither verified nor bound. */
  predicate Uncorrelated(s: State, state: Option<string>, signed: Option<Signed>, now: int) {
    || state.None? || state.value == ""
    || (signed.None? && !(state.value in s.bindings && now < s.bindings[state.value].expiresAt))
  }

  /** The one member of a set of one, and nobody otherwise. */
  ghost predicate IsOnlyOne(target: Option<string>, ids: set<string>) {
    && (forall id :: target == Some(id) <==> ids == {id})
    && (target.None? <==> |ids| != 1)
  }

  lemma OnlyOneIsSole(ids: set<string>)
    ensures IsOnlyOne(Sole(ids), ids)
  {
    if |ids| == 1 {
      var one :| one in ids;
      assert |ids - {one}| == 0;
      assert ids == {one};
    }
  }

  /**
   A callback that nothing correlates goes to the route's only deliverable subscriber, and to nobody when
   there is none or more than one.
   */
  lemma UncorrelatedGoesToTheOnlyOne(s: State, state: Option<string>, signed: Option<Signed>, now: int)
    requires Uncorrelated(s, state, signed, now)
    ensures IsOnlyOne(OAuthTarget(s, state, signed, now), Deliverable(s))
  {
    hide Sole, Deliverable;
    OnlyOneIsSole(Deliverable(s));
  }

  /** A successful bind stores the binding with its full lifetime. */
  lemma BindStores(s: State, bind: Step)
    requires Inv(s) && Enabled(s, bind) && bind.Bind? && BindableState(bind.boundState)
    requires bind.subscriberId in KeptRows(s, bind.now)
    ensures var b := Binding(bind.subscriberId, bind.now + OAUTH_STATE_TTL_MS);
      bind.boundState in Next(s, bind).bindings && Next(s, bind).bindings[bind.boundState] == b
  {
  }

  /**
   OAuth correlation. After a successful bind of `st` to `S`, in any run that does not rebind `st`, a
   callback carrying `st` (which does not verify as a signed state) goes to `S` or to nobody as long as
   the binding is unexpired and `S` still has its row; after that, and only then, it goes to the only
   deliverable subscriber, if there is just one.
   */
  lemma OAuthCorrelation(s: State, bind: Step, steps: seq<Step>, now: int, order: seq<string>)
    requires Reachable(s) && Enabled(s, bind) && bind.Bind? && BindableState(bind.boundState)
    requires bind.subscriberId in KeptRows(s, bind.now)
    requires Runs(Next(s, bind), steps) && NoRebind(steps, bind.boundState)
    requires After(Next(s, bind), steps).clock <= now
    ensures var p := Purge(After(Next(s, bind), steps), now, order);
      var target := OAuthTarget(p, Some(bind.boundState), None, now);
      if now < bind.now + OAUTH_STATE_TTL_MS && bind.subscriberId in p.rows then
        target == if bind.subscriberId in Deliverable(p) then Some(bind.subscriberId) else None
      else IsOnlyOne(target, Deliverable(p))
  {
    hide Next;
    var bound := Next(s, bind);
    var t := After(bound, steps);
    var b := Binding(bind.subscriberId, bind.now + OAUTH_STATE_TTL_MS);
    ReachableInv(s);
    BindStores(s, bind);
    StepKeeps(s, bind);
    BindingSurvives(bound, steps, bind.boundState, b);
    ClockCovers(bound, steps);
    RunKeeps(bound, steps);
    CorrelatedTarget(t, bind.boundState, b, now, order);
  }

  lemma CorrelatedTarget(t: State, st: string, b: Binding, now: int, order: seq<string>)
    requires st != "" && BindingsOk(t.bindings, t.rows)
    requires st in t.bindings ==> t.bindings[st] == b
    requires now < b.expiresAt && b.subscriberId in t.rows ==> st in t.bindings
    ensures var p := Purge(t, now, order);
      var target := OAuthTarget(p, Some(st), None, now);
      if now < b.expiresAt && b.subscriberId in p.rows then
        target == if b.subscriberId in Deliverable(p) then Some(b.subscriberId) else None
      else IsOnlyOne(target, Deliverable(p))
  {
    var p := Purge(t, now, order);
    if now < b.expiresAt && b.subscriberId in p.rows {
      assert OAuthTarget(p, Some(st), None, now) ==
        if b.subscriberId in Deliverable(p) then Some(b.subscriberId) else None;
    } else {
      assert Uncorrelated(p, Some(st), None, now);
      UncorrelatedGoesToTheOnlyOne(p, Some(st), None, now);
    }
  }

  // ---- OAuth and webhook filtering do not interfere ----------------------------------

  /** The same row but for its webhook flag. */
  ghost predicate SameButFlag(a: Row, b: Row) {
    b == a.(acceptWebhooks := b.acceptWebhooks)
  }

  /** Two states that differ in webhook flags only. */
  ghost predicate SameButFlags(s: State, t: State) {
    && t == s.(rows := t.rows)
    && s.rows.Keys == t.rows.Keys
    && forall id :: id in s.rows ==> SameButFlag(s.rows[id], t.rows[id])
  }

  lemma KeptIgnoresFlags(s: State, t: State, now: int)
    requires SameButFlags(s, t)
    ensures Removed(s, now) == Removed(t, now)
    ensures KeptRows(s, now).Keys == KeptRows(t, now).Keys
    ensures forall id :: id in KeptRows(s, now) ==> SameButFlag(KeptRows(s, now)[id], KeptRows(t, now)[id])
    ensures KeptBindings(s, now) == KeptBindings(t, now)
  {
  }

  lemma StaleIgnoresFlags(sockets: map<nat, Socket>, rows: map<string, Row>, other: map<string, Row>, now: int)
    requires rows.Keys == other.Keys && forall id :: id in rows ==> SameButFlag(rows[id], other[id])
    ensures StaleClosed(sockets, rows, now) == StaleClosed(sockets, other, now)
  {
  }

  lemma EventsIgnoreFlags(rows: map<string, Row>, other: map<string, Row>, order: seq<string>, now: int)
    requires rows.Keys == other.Keys && forall id :: id in rows ==> SameButFlag(rows[id], other[id])
    ensures RemovalEvents(rows, order, now) == RemovalEvents(other, order, now)
  {
  }

  lemma PurgeIgnoresFlags(s: State, t: State, now: int, order: seq<string>)
    requires SameButFlags(s, t)
    ensures SameButFlags(Purge(s, now, order), Purge(t, now, order))
  {
    KeptIgnoresFlags(s, t, now);
    StaleIgnoresFlags(s.sockets, KeptRows(s, now), KeptRows(t, now), now);
    EventsIgnoreFlags(s.rows, t.rows, order, now);
    hide KeptRows, KeptBindings, Removed, StaleClosed, RemovalEvents;
  }

  lemma TargetIgnoresFlags(s: State, t: State, state: Option<string>, signed: Option<Signed>, now: int)
    requires SameButFlags(s, t)
    ensures OAuthTarget(s, state, signed, now) == OAuthTarget(t, state, signed, now)
  {
    assert Deliverable(s) == Deliverable(t);
  }

  lemma DeliverIgnoresFlags(s: State, t: State, id: string, requestId: string, tooLarge: bool, broken: set<string>,
                            now: int)
    requires SameButFlags(s, t)
    ensures SameButFlags(Deliver(s, id, requestId, tooLarge, broken, now),
                         Deliver(t, id, requestId, tooLarge, broken, now))
  {
    assert SameButFlags(Extend(s, id, now), Extend(t, id, now));
  }

  /**
   An OAuth callback is handled identically whatever the webhook flags say: same target, and states that
   again differ in those flags only. Deny-all and the path rules are not even an input of this handler.
   */
  lemma OAuthIgnoresWebhookFlags(s: State, t: State, step: Step)
    requires SameButFlags(s, t) && step.ProxyOAuth?
    ensures SameButFlags(NextProxy(s, step), NextProxy(t, step))
    ensures OAuthTarget(Purge(s, step.now, step.order), step.oauthState, step.signed, step.now)
         == OAuthTarget(Purge(t, step.now, step.order), step.oauthState, step.signed, step.now)
  {
    var p, q := Purge(s, step.now, step.order), Purge(t, step.now, step.order);
    PurgeIgnoresFlags(s, t, step.now, step.order);
    TargetIgnoresFlags(p, q, step.oauthState, step.signed, step.now);
    var target := OAuthTarget(p, step.oauthState, step.signed, step.now);
    if target.Some? {
      DeliverIgnoresFlags(p, q, target.value, step.requestId, step.tooLarge, step.broken, step.now);
    }
  }

  // ---- the delivered count -------------------------------------------------------------

  lemma {:induction false} EnumerationLength(order: seq<string>, ids: set<string>)
    requires Enumerates(order, ids)
    ensures |order| == |ids|
    decreases |order|
  {
    if order == [] {
      assert ids == {};
    } else {
      var last := order[|order| - 1];
      var front := order[..|order| - 1];
      assert last in ids && last !in front;
      forall id ensures id in front <==> id in ids - {last} {
        assert id in order <==> id in front || id == last;
      }
      EnumerationLength(front, ids - {last});
    }
  }

  ghost function FanoutTargets(s: State, path: string, settings: WebhookPathFilter.Settings): set<string> {
    set id | id in s.rows && IsFanoutTarget(s, path, settings, id)
  }

  /**
   The count logged for a webhook is the number of subscribers a fan-out at the same time delivers to:
   the count's own purge leaves nothing for the fan-out's to change.
   */
  lemma CountIsFanoutSize(s: State, count: Step, fanOut: Step)
    requires Inv(s) && Enabled(s, count) && count.CountFanout?
    requires fanOut.FanOut? && fanOut.now == count.now && Enabled(Next(s, count), fanOut)
    ensures |fanOut.targets| == |FanoutTargets(Purge(s, count.now, count.order), fanOut.path, fanOut.settings)|
  {
    hide Purge, InvAt;
    var p := Purge(s, count.now, count.order);
    var c := Next(s, count);
    ClockAdvances(s, count.now);
    NothingRemovedTwice(s, count.now, count.order);
    assert c == p.(clock := count.now);
    assert Removed(c, count.now) == Removed(p, count.now);
    EnumerationLength(fanOut.order, {});
    PurgeIdempotent(s, count.now, count.order);
    PurgeIgnoresClock(p, count.now, count.now);
    var q := Purge(c, count.now, []);
    assert q == p.(clock := count.now);
    assert FanoutTargets(q, fanOut.path, fanOut.settings) == FanoutTargets(p, fanOut.path, fanOut.settings);
    EnumerationLength(fanOut.targets, FanoutTargets(q, fanOut.path, fanOut.settings));
  }

  lemma PurgeIgnoresClock(s: State, clock: int, now: int)
    ensures Purge(s.(clock := clock), now, []) == Purge(s, now, []).(clock := clock)
  {
    assert KeptRows(s.(clock := clock), now) == KeptRows(s, now);
    assert KeptBindings(s.(clock := clock), now) == KeptBindings(s, now);
    assert Removed(s.(clock := clock), now) == Removed(s, now);
  }
}
