/**
 What a step does to every promise, told on the tables alone: which are settled and how, and what becomes of
 a request that is sent.
 */
module RouteRequestLaws {
  import opened Wrappers
  import opened RouteState
  import opened RouteSteps
  import opened RouteInvariant
  import opened RoutePrimitives
  import opened RouteDetach
  import opened RouteCarry
  import opened RouteReachable
  import opened RouteRuns
  import opened RouteRequests
  import opened RouteRowLaws
  import opened RouteSocketLaws

  /** The subscriber whose tunnel a promise waits for, while the entry of its request is its own. */
  ghost function OwnerOf(r: Requests, p: nat): Option<string> {
    if p in r.timers && r.timers[p].requestId in r.pending && r.pending[r.timers[p].requestId].promise == p then
      Some(r.pending[r.timers[p].requestId].subscriberId)
    else None
  }

  /** How a step settles a promise that its owner's tunnel has to answer. */
  ghost function OwnedEnd(s: State, step: Step, p: nat, owner: string): Option<Outcome>
    requires p in s.requests.timers
  {
    var k := s.requests.timers[p].requestId;
    if step.Message? && step.message == Response(k) then Some(Answered)
    else if step.Message? && step.message == Error(k) then Some(Errored)
    else if step.Deregister? && step.subscriberId == owner then Some(SubscriberGone("subscriber_disconnected"))
    else if step.SocketGone? && step.socket in s.sockets && s.sockets[step.socket].tag == owner then
      Some(SubscriberGone("tunnel_disconnected"))
    else if Joined(s, step) == Some(owner) then Some(SubscriberGone("subscriber_replaced"))
    else if Purges(step) && owner in s.rows && Lapses(s, owner, step.now) then
      Some(SubscriberGone("tunnel_disconnected"))
    else None
  }

  /** How a step settles a promise: by its timer, or through its own pending entry. */
  ghost function EndOf(s: State, step: Step, p: nat): Option<Outcome> {
    if step.TimerFires? && step.promise == p then Some(TimedOut)
    else if OwnerOf(s.requests, p).None? then None
    else OwnedEnd(s, step, p, OwnerOf(s.requests, p).value)
  }

  ghost predicate PromiseLaw(s: State, step: Step, t: Requests, p: nat)
    requires p in s.requests.outcomes
  {
    p in t.outcomes &&
    t.outcomes[p] == s.requests.outcomes[p] + if EndOf(s, step, p).Some? then [EndOf(s, step, p).value] else []
  }

  // ---- the primitives ---------------------------------------------------------------------

  lemma FailedOutcome(r: Requests, ids: set<string>, o: Outcome, p: nat)
    requires SettlementOk(r) && p in r.outcomes
    ensures var t := Failed(r, ids, o);
      var hit := OwnerOf(r, p).Some? && OwnerOf(r, p).value in ids;
      && SettlementOk(t) && p in t.outcomes
      && t.outcomes[p] == r.outcomes[p] + (if hit then [o] else [])
      && OwnerOf(t, p) == if hit then None else OwnerOf(r, p)
  {
    FailingSettles(r, ids, o);
    var t := Failed(r, ids, o);
    assert p in PromisesOf(r.pending, ids) <==> OwnerOf(r, p).Some? && OwnerOf(r, p).value in ids by {
      if p in PromisesOf(r.pending, ids) {
        var k :| k in r.pending && r.pending[k].subscriberId in ids && r.pending[k].promise == p;
        assert r.timers[p].requestId == k;
      }
    }
  }

  lemma AnswerOutcome(r: Requests, requestId: string, o: Outcome, p: nat)
    requires SettlementOk(r) && p in r.outcomes
    ensures var t := Answer(r, requestId, o);
      var hit := OwnerOf(r, p).Some? && r.timers[p].requestId == requestId;
      p in t.outcomes && t.outcomes[p] == r.outcomes[p] + if hit then [o] else []
  {
  }

  lemma TimerOutcome(r: Requests, promise: nat, p: nat)
    requires SettlementOk(r) && p in r.outcomes && promise in r.timers
    ensures var t := TimeOut(r, promise);
      p in t.outcomes && t.outcomes[p] == r.outcomes[p] + if p == promise then [TimedOut] else []
  {
  }

  lemma {:induction false} FanOutOutcome(s: State, ids: seq<string>, requestId: string, tooLarge: bool,
                                         broken: set<string>, now: int, p: nat)
    requires SettlementOk(s.requests) && p in s.requests.outcomes
    ensures var d := DeliverAll(s, ids, requestId, tooLarge, broken, now).requests;
      p in d.outcomes && d.outcomes[p] == s.requests.outcomes[p]
    decreases |ids|
  {
    if ids != [] {
      var front := ids[..|ids| - 1];
      FanOutOutcome(s, front, requestId, tooLarge, broken, now, p);
      FanningOutIsOrderly(s, front, requestId, tooLarge, broken, now);
      DeliveryOutcome(DeliverAll(s, front, requestId, tooLarge, broken, now), ids[|ids| - 1], requestId, tooLarge,
                      broken, now, p);
    }
  }

  lemma DeliveryOutcome(s: State, id: string, requestId: string, tooLarge: bool, broken: set<string>, now: int, p: nat)
    requires SettlementOk(s.requests) && p in s.requests.outcomes
    ensures var d := Deliver(s, id, requestId, tooLarge, broken, now).requests;
      p in d.outcomes && d.outcomes[p] == s.requests.outcomes[p]
  {
    hide HasOpen, Sending, SettlementOk;
    NextPromiseIsNew(s.requests);
    SendingKeeps(s.requests, HasOpen(Extend(s, id, now).sockets, id), id in broken, id, requestId, now, p);
  }

  lemma SendingKeeps(r: Requests, open: bool, throws: bool, id: string, requestId: string, now: int, p: nat)
    requires p in r.outcomes && r.nextPromise !in r.outcomes
    ensures var t := Sending(r, open, throws, id, requestId, now);
      p in t.outcomes && t.outcomes[p] == r.outcomes[p]
  {
  }

  // ---- the law of promises -----------------------------------------------------------------

  lemma PurgeOutcome(s: State, now: int, order: seq<string>, p: nat)
    requires SettlementOk(s.requests) && p in s.requests.outcomes
    ensures var t := Purge(s, now, order).requests;
      var owner := OwnerOf(s.requests, p);
      var hit := owner.Some? && owner.value in s.rows && Lapses(s, owner.value, now);
      && SettlementOk(t) && p in t.outcomes
      && t.outcomes[p] == s.requests.outcomes[p] + (if hit then [SubscriberGone("tunnel_disconnected")] else [])
      && OwnerOf(t, p) == if hit then None else owner
  {
    hide SettlementOk, Failed, OwnerOf, KeptRows;
    FailedOutcome(s.requests, Removed(s, now), SubscriberGone("tunnel_disconnected"), p);
    if OwnerOf(s.requests, p).Some? {
      var owner := OwnerOf(s.requests, p).value;
      PurgedRow(s, now, owner);
      RemovedIff(s, now, owner);
    }
  }

  lemma RemovedIff(s: State, now: int, id: string)
    ensures id in Removed(s, now) <==> id in s.rows && id !in KeptRows(s, now)
  {
  }

  lemma JoinOutcome(s: State, step: Step)
    requires IsJoin(step) && !Refused(step)
    ensures var v := WelcomedBy(s, step);
      && v.requests == Purge(s, step.now, step.order).requests
      && Next(s, step).requests ==
           if Joined(s, step).Some? then Attach(v, JoinOf(step), step.draw, step.now).requests else v.requests
  {
    hide Purge, Attach, IsRejected, JoinedId, CleanupAt;
  }

  /** An accepted join fails the requests of its subscriber; a new subscriber has none. */
  lemma AttachOutcome(w: State, j: Join, draw: Draw, now: int, p: nat)
    requires SettlementOk(w.requests) && p in w.requests.outcomes
    requires OwnerOf(w.requests, p) != Some(draw.subscriberId)
    ensures var t := Attach(w, j, draw, now).requests;
      && p in t.outcomes
      && t.outcomes[p] == w.requests.outcomes[p] +
           if OwnerOf(w.requests, p) == Some(JoinedId(w, j, draw)) then [SubscriberGone("subscriber_replaced")] else []
  {
    hide SettlementOk, Failed, OwnerOf;
    if HasEnvironment(w.rows, j.environmentId) {
      FailedOutcome(w.requests, {EnvironmentOwner(w.rows, j.environmentId)}, SubscriberGone("subscriber_replaced"), p);
    }
  }

  lemma OwnersHaveRows(s: State, p: nat)
    requires PendingOk(s.requests.pending, s.rows) && OwnerOf(s.requests, p).Some?
    ensures OwnerOf(s.requests, p).value in s.rows
  {
  }

  lemma JoinedDoesNotLapse(s: State, step: Step, id: string)
    requires Inv(s) && Enabled(s, step) && Joined(s, step) == Some(id) && id in s.rows
    ensures !Lapses(s, id, step.now)
  {
    hide Inv, Enabled, Next, Joined, KeptRows;
    InvReferences(s);
    RowAfter(s, step, id);
    PurgedRow(s, step.now, id);
  }

  lemma JoinPromiseLaw(s: State, step: Step, p: nat)
    requires Inv(s) && Enabled(s, step) && IsJoin(step) && p in s.requests.outcomes
    ensures PromiseLaw(s, step, Next(s, step).requests, p)
  {
    var draw := step.draw;
    hide *;
    EnabledJoin(s, step);
    DrawnOwnsNothing(s, draw, p);
    if Refused(step) {
      RefusedPromiseLaw(s, step, p);
    } else {
      var w := WelcomedBy(s, step);
      PurgeOutcome(s, step.now, step.order, p);
      JoinOutcome(s, step);
      if Joined(s, step).Some? {
        JoinedIs(s, step);
        AttachOutcome(w, JoinOf(step), draw, step.now, p);
        if Joined(s, step).value in s.rows {
          JoinedDoesNotLapse(s, step, Joined(s, step).value);
        }
      }
      JoinedPromise(s, step, Next(s, step).requests, w.requests, p);
    }
  }

  lemma JoinedPromise(s: State, step: Step, t: Requests, purged: Requests, p: nat)
    requires IsJoin(step) && !Refused(step) && p in s.requests.outcomes && p in purged.outcomes && p in t.outcomes
    requires var owner := OwnerOf(s.requests, p);
      var hit := owner.Some? && owner.value in s.rows && Lapses(s, owner.value, step.now);
      && purged.outcomes[p]
           == s.requests.outcomes[p] + (if hit then [SubscriberGone("tunnel_disconnected")] else [])
      && OwnerOf(purged, p) == if hit then None else owner
    requires var j := Joined(s, step);
      && (j.Some? && j.value in s.rows ==> !Lapses(s, j.value, step.now))
      && t.outcomes[p] == purged.outcomes[p] +
           if j.Some? && OwnerOf(purged, p) == j then [SubscriberGone("subscriber_replaced")] else []
    ensures PromiseLaw(s, step, t, p)
  {
    hide Lapses, Joined;
  }

  lemma RefusedPromiseLaw(s: State, step: Step, p: nat)
    requires IsJoin(step) && Refused(step) && p in s.requests.outcomes
    ensures PromiseLaw(s, step, Next(s, step).requests, p)
  {
    hide Lapses;
    RefusedKeepsRequests(s, step);
  }

  lemma JoinedIs(s: State, step: Step)
    requires IsJoin(step) && Joined(s, step).Some?
    ensures Joined(s, step).value == JoinedId(WelcomedBy(s, step), JoinOf(step), step.draw)
  {
    hide IsRejected, JoinedId, Welcomed;
  }

  lemma RefusedKeepsRequests(s: State, step: Step)
    requires IsJoin(step) && Refused(step)
    ensures Next(s, step).requests == s.requests && Joined(s, step).None? && !Purges(step)
  {
  }

  lemma DrawnOwnsNothing(s: State, draw: Draw, p: nat)
    requires Inv(s) && FreshDraw(s, draw)
    ensures OwnerOf(s.requests, p) != Some(draw.subscriberId)
    ensures SettlementOk(s.requests)
  {
  }

  lemma DroppedOutcome(s: State, id: string, now: int, p: nat)
    requires SettlementOk(s.requests) && p in s.requests.outcomes
    ensures var d := Dropped(s, id).requests;
      var hit := OwnerOf(s.requests, p) == Some(id);
      && SettlementOk(d) && p in d.outcomes
      && d.outcomes[p] == s.requests.outcomes[p] + (if hit then [SubscriberGone("subscriber_disconnected")] else [])
      && OwnerOf(d, p) == if hit then None else OwnerOf(s.requests, p)
  {
    hide Failed, OwnerOf, SettlementOk;
    FailedOutcome(s.requests, {id}, SubscriberGone("subscriber_disconnected"), p);
  }

  lemma DeregisterRequests(s: State, step: Step)
    requires step.Deregister?
    ensures Next(s, step).requests == Purge(Dropped(s, step.subscriberId), step.now, step.order).requests
  {
    hide Purge, Dropped, CleanupAt;
  }

  lemma DeregisterPromiseLaw(s: State, step: Step, p: nat)
    requires SettlementOk(s.requests) && PendingOk(s.requests.pending, s.rows)
    requires step.Deregister? && p in s.requests.outcomes
    ensures PromiseLaw(s, step, Next(s, step).requests, p)
  {
    var id := step.subscriberId;
    var d := Dropped(s, id);
    var owner := OwnerOf(s.requests, p);
    hide *;
    DeregisterRequests(s, step);
    DroppedOutcome(s, id, step.now, p);
    PurgeOutcome(d, step.now, step.order, p);
    if owner.Some? {
      OwnersHaveRows(s, p);
      if owner.value != id {
        DroppedLapses(s, id, step.now, owner.value);
      }
    }
    DeregisteredPromise(s, step, Next(s, step).requests, d, p);
  }

  lemma DeregisteredPromise(s: State, step: Step, t: Requests, d: State, p: nat)
    requires step.Deregister? && p in s.requests.outcomes && p in d.requests.outcomes && p in t.outcomes
    requires var owner := OwnerOf(s.requests, p);
      var hit := owner == Some(step.subscriberId);
      var late := OwnerOf(d.requests, p);
      && (owner.Some? ==> owner.value in s.rows)
      && (owner.Some? && !hit ==>
            owner.value in d.rows && (Lapses(d, owner.value, step.now) <==> Lapses(s, owner.value, step.now)))
      && late == (if hit then None else owner)
      && d.requests.outcomes[p]
           == s.requests.outcomes[p] + (if hit then [SubscriberGone("subscriber_disconnected")] else [])
      && t.outcomes[p] == d.requests.outcomes[p] +
           if late.Some? && late.value in d.rows && Lapses(d, late.value, step.now) then
             [SubscriberGone("tunnel_disconnected")]
           else []
    ensures PromiseLaw(s, step, t, p)
  {
    hide Lapses;
  }

  lemma SocketGonePromiseLaw(s: State, step: Step, p: nat)
    requires Inv(s) && Enabled(s, step) && step.SocketGone? && p in s.requests.outcomes
    ensures PromiseLaw(s, step, Next(s, step).requests, p)
  {
    var id := s.sockets[step.socket].tag;
    SocketHasRow(s, step);
    RequestsOk(s, step);
    hide *;
    DetachedRequests(s, step);
    FailedOutcome(s.requests, {id}, SubscriberGone("tunnel_disconnected"), p);
    SocketGonePromise(s, step, Next(s, step).requests, p);
  }

  lemma DetachedRequests(s: State, step: Step)
    requires step.SocketGone? && step.socket in s.sockets
    requires step.socket !in s.ignored ==> s.sockets[step.socket].tag in s.rows
    ensures Next(s, step).requests
         == Failed(s.requests, {s.sockets[step.socket].tag}, SubscriberGone("tunnel_disconnected"))
  {
    hide Failed, CleanupAt;
    DetachCases(s, step.now, step.socket, step.stale);
  }

  lemma SocketGonePromise(s: State, step: Step, t: Requests, p: nat)
    requires step.SocketGone? && step.socket in s.sockets && p in s.requests.outcomes && p in t.outcomes
    requires var owner := OwnerOf(s.requests, p);
      t.outcomes[p] == s.requests.outcomes[p] +
        if owner.Some? && owner.value in {s.sockets[step.socket].tag} then [SubscriberGone("tunnel_disconnected")]
        else []
    ensures PromiseLaw(s, step, t, p)
  {
    hide Lapses;
  }

  lemma EventPromiseLaw(s: State, step: Step, p: nat)
    requires SettlementOk(s.requests) && !Purges(step) && !IsJoin(step) && !step.SocketGone? && p in s.requests.outcomes
    requires step.TimerFires? ==> step.promise in s.requests.timers
    ensures PromiseLaw(s, step, Next(s, step).requests, p)
  {
    hide SettlementOk, Purges, PromiseLaw, Next, Answer, TimeOut;
    EventRequests(s, step);
    if step.Message? && step.message.Response? {
      AnswerOutcome(s.requests, step.message.id, Answered, p);
    } else if step.Message? && step.message.Error? {
      AnswerOutcome(s.requests, step.message.id, Errored, p);
    } else if step.TimerFires? {
      TimerOutcome(s.requests, step.promise, p);
    }
    EventPromise(s, step, Next(s, step).requests, p);
  }

  lemma EventRequests(s: State, step: Step)
    requires !Purges(step) && !IsJoin(step) && !step.SocketGone?
    ensures Next(s, step).requests ==
      if step.Message? && step.message.Response? then Answer(s.requests, step.message.id, Answered)
      else if step.Message? && step.message.Error? then Answer(s.requests, step.message.id, Errored)
      else if step.TimerFires? then TimeOut(s.requests, step.promise)
      else s.requests
  {
    hide Answer, TimeOut, NextFetch, NextRegister, NextHeartbeat, NextDeregister, NextPrune, NextProxy, NextSocketGone,
         NextAlarm, Purge, DeliverAll;
  }

  /** What an event settles, as its outcome. */
  function EventOutcome(step: Step): Outcome {
    if step.Message? && step.message.Response? then Answered
    else if step.Message? then Errored else TimedOut
  }

  lemma EventPromise(s: State, step: Step, t: Requests, p: nat)
    requires !Purges(step) && !IsJoin(step) && !step.SocketGone? && p in s.requests.outcomes && p in t.outcomes
    requires var answers := step.Message? && (step.message.Response? || step.message.Error?)
                            && OwnerOf(s.requests, p).Some?
                            && s.requests.timers[p].requestId == step.message.id;
      t.outcomes[p] == s.requests.outcomes[p] +
        if answers || (step.TimerFires? && p == step.promise) then [EventOutcome(step)] else []
    ensures PromiseLaw(s, step, t, p)
  {
    NotJoined(s, step);
    hide Joined, Lapses;
  }

  lemma AlarmRequests(s: State, now: int, order: seq<string>)
    ensures NextAlarm(s, now, order).requests == Purge(s, now, order).requests
  {
    hide Failed, CleanupAt, StaleClosed, KeptRows, KeptBindings, RemovalEvents;
    assert Removed(s.(alarm := None), now) == Removed(s, now);
  }

  lemma QueryPromiseLaw(s: State, step: Step, p: nat)
    requires SettlementOk(s.requests) && Purges(step) && !IsJoin(step) && !step.Deregister? && p in s.requests.outcomes
    ensures PromiseLaw(s, step, Next(s, step).requests, p)
  {
    var order := step.order;
    hide *;
    PurgeOutcome(s, step.now, order, p);
    QueryOutcome(s, step, p);
    QueriedPromise(s, step, Purge(s, step.now, order).requests, Next(s, step).requests, p);
  }

  lemma QueryOutcome(s: State, step: Step, p: nat)
    requires Purges(step) && !IsJoin(step) && !step.Deregister?
    requires var r := Purge(s, step.now, step.order).requests; SettlementOk(r) && p in r.outcomes
    ensures var r, t := Purge(s, step.now, step.order).requests, Next(s, step).requests;
      p in t.outcomes && t.outcomes[p] == r.outcomes[p]
  {
    hide SettlementOk, Purge, DeliverAll, Deliver, OAuthTarget, Next;
    QueryRequests(s, step);
    var purged := Purge(s, step.now, step.order);
    if step.FanOut? {
      FanOutOutcome(purged, step.targets, step.requestId, step.tooLarge, step.broken, step.now, p);
    } else if step.ProxyOAuth? {
      var target := OAuthTarget(purged, step.oauthState, step.signed, step.now);
      if target.Some? {
        DeliveryOutcome(purged, target.value, step.requestId, step.tooLarge, step.broken, step.now, p);
      }
    }
  }

  lemma QueriedPromise(s: State, step: Step, purged: Requests, t: Requests, p: nat)
    requires Purges(step) && !IsJoin(step) && !step.Deregister?
    requires p in s.requests.outcomes && p in purged.outcomes && p in t.outcomes
    requires var owner := OwnerOf(s.requests, p);
      var hit := owner.Some? && owner.value in s.rows && Lapses(s, owner.value, step.now);
      purged.outcomes[p]
        == s.requests.outcomes[p] + (if hit then [SubscriberGone("tunnel_disconnected")] else [])
    requires t.outcomes[p] == purged.outcomes[p]
    ensures PromiseLaw(s, step, t, p)
  {
    NotJoined(s, step);
    hide Lapses, Joined;
  }

  /**
   After any step a promise is settled exactly as the step's cause says: answered, failed by the client,
   timed out, or because its subscriber was deregistered, replaced, lost a socket or lapsed; and otherwise
   it is as it was.
   */
  lemma PromiseAfter(s: State, step: Step, p: nat)
    requires Inv(s) && Enabled(s, step) && p in s.requests.outcomes
    ensures PromiseLaw(s, step, Next(s, step).requests, p)
  {
    RequestsOk(s, step);
    hide Inv, Enabled, Next, PromiseLaw, SettlementOk, PendingOk;
    if IsJoin(step) {
      JoinPromiseLaw(s, step, p);
    } else if step.Deregister? {
      DeregisterPromiseLaw(s, step, p);
    } else if step.SocketGone? {
      SocketGonePromiseLaw(s, step, p);
    } else if Purges(step) {
      QueryPromiseLaw(s, step, p);
    } else {
      EventPromiseLaw(s, step, p);
    }
  }

  lemma RequestsOk(s: State, step: Step)
    requires Inv(s) && Enabled(s, step)
    ensures SettlementOk(s.requests) && PendingOk(s.requests.pending, s.rows)
    ensures step.TimerFires? ==> step.promise in s.requests.timers
  {
  }

  // ---- what is sent --------------------------------------------------------------------------

  /** Someone listens at an OPEN socket of the subscriber. */
  ghost predicate Listening(s: State, id: string) {
    exists w :: w in s.sockets && s.sockets[w].tag == id && s.sockets[w].open
  }

  /**
   What becomes of a request over a tunnel: it waits ten seconds at most for an answer under its id, or
   fails at once because nobody listens or the send throws; either way no other promise changes.
   */
  ghost predicate IsSent(r: Requests, t: Requests, listening: bool, throws: bool, id: string, requestId: string,
                         now: int) {
    var p := r.nextPromise;
    && t.nextPromise == p + 1 && p in t.outcomes
    && (forall q :: q in r.outcomes ==> q in t.outcomes && t.outcomes[q] == r.outcomes[q])
    && (forall k :: k != requestId ==>
          (k in t.pending <==> k in r.pending) && (k in r.pending ==> t.pending[k] == r.pending[k]))
    && (forall q :: q in r.timers ==> q in t.timers && t.timers[q] == r.timers[q])
    && (listening && !throws ==>
          && t.outcomes[p] == [] && p in t.timers && t.timers[p] == Timer(requestId, now + 10_000)
          && requestId in t.pending && t.pending[requestId] == Pending(id, p))
    && (listening && throws ==> t.outcomes[p] == [SendFailed] && requestId !in t.pending)
    && (!listening ==> t.outcomes[p] == [Outcome.NoSocket] && t.pending == r.pending)
    && (!listening || throws ==> t.timers == r.timers)
  }

  /** A delivery fetches a public target without a request, and sends one over a tunnel unless it is too large. */
  lemma DeliveryLaw(s: State, id: string, requestId: string, tooLarge: bool, broken: set<string>, now: int)
    requires SettlementOk(s.requests) && id in s.rows
    ensures var t := Deliver(s, id, requestId, tooLarge, broken, now).requests;
      if s.rows[id].transport == Public || tooLarge then t == s.requests
      else IsSent(s.requests, t, Listening(s, id), id in broken, id, requestId, now)
  {
    assert Extend(s, id, now).sockets == s.sockets;
    assert HasOpen(s.sockets, id) <==> Listening(s, id);
    NextPromiseIsNew(s.requests);
    assert s.requests.nextPromise !in s.requests.timers;
  }

  /** A subscriber is deliverable exactly if a delivery to it is not refused for want of a socket. */
  lemma DeliverableIff(s: State, id: string, requestId: string, broken: set<string>, now: int)
    requires SettlementOk(s.requests) && id in s.rows
    ensures var t := Deliver(s, id, requestId, false, broken, now).requests;
      var p := s.requests.nextPromise;
      id in Deliverable(s) <==>
        s.rows[id].transport == Public || (p in t.outcomes && t.outcomes[p] != [Outcome.NoSocket])
  {
    DeliveryLaw(s, id, requestId, false, broken, now);
    assert HasOpen(s.sockets, id) <==> Listening(s, id);
  }

  // ---- entries ---------------------------------------------------------------------------------

  /** Pending entries are left from before or belong to new promises. */
  ghost predicate OldOrNew(r: Requests, t: Requests) {
    && r.nextPromise <= t.nextPromise
    && (forall k :: k in t.pending ==>
          (k in r.pending && t.pending[k] == r.pending[k]) || t.pending[k].promise >= r.nextPromise)
  }

  lemma OldOrNewTwice(a: Requests, b: Requests, c: Requests)
    requires OldOrNew(a, b) && OldOrNew(b, c)
    ensures OldOrNew(a, c)
  {
  }

  lemma FailedIsOld(r: Requests, ids: set<string>, o: Outcome)
    ensures OldOrNew(r, Failed(r, ids, o))
  {
  }

  lemma PurgeIsOld(s: State, now: int, order: seq<string>)
    ensures OldOrNew(s.requests, Purge(s, now, order).requests)
  {
    FailedIsOld(s.requests, Removed(s, now), SubscriberGone("tunnel_disconnected"));
  }

  lemma AttachIsOld(w: State, j: Join, draw: Draw, now: int)
    ensures OldOrNew(w.requests, Attach(w, j, draw, now).requests)
  {
    hide Failed;
    if HasEnvironment(w.rows, j.environmentId) {
      FailedIsOld(w.requests, {EnvironmentOwner(w.rows, j.environmentId)}, SubscriberGone("subscriber_replaced"));
    }
  }

  lemma DeliverIsNew(s: State, id: string, requestId: string, tooLarge: bool, broken: set<string>, now: int)
    ensures OldOrNew(s.requests, Deliver(s, id, requestId, tooLarge, broken, now).requests)
  {
  }

  lemma {:induction false} DeliverAllIsNew(s: State, ids: seq<string>, requestId: string, tooLarge: bool,
                                           broken: set<string>, now: int)
    ensures OldOrNew(s.requests, DeliverAll(s, ids, requestId, tooLarge, broken, now).requests)
    decreases |ids|
  {
    hide Deliver, OldOrNew;
    if ids == [] {
      OldByItself(s.requests);
    } else {
      var front := ids[..|ids| - 1];
      var d := DeliverAll(s, front, requestId, tooLarge, broken, now);
      DeliverAllIsNew(s, front, requestId, tooLarge, broken, now);
      DeliverIsNew(d, ids[|ids| - 1], requestId, tooLarge, broken, now);
      OldOrNewTwice(s.requests, d.requests, DeliverAll(s, ids, requestId, tooLarge, broken, now).requests);
    }
  }

  lemma OldByItself(r: Requests)
    ensures OldOrNew(r, r)
  {
  }

  lemma JoinIsOld(s: State, step: Step)
    requires IsJoin(step)
    ensures OldOrNew(s.requests, Next(s, step).requests)
  {
    hide OldOrNew, Next, Purge, Attach, Joined;
    if Refused(step) {
      RefusedKeepsRequests(s, step);
      OldByItself(s.requests);
    } else {
      PurgeIsOld(s, step.now, step.order);
      JoinOutcome(s, step);
      var w := WelcomedBy(s, step);
      AttachIsOld(w, JoinOf(step), step.draw, step.now);
      OldOrNewTwice(s.requests, w.requests, Attach(w, JoinOf(step), step.draw, step.now).requests);
    }
  }

  lemma DeregisterIsOld(s: State, step: Step)
    requires step.Deregister?
    ensures OldOrNew(s.requests, Next(s, step).requests)
  {
    hide OldOrNew, Next, Purge, Failed;
    var d := Dropped(s, step.subscriberId);
    DeregisterRequests(s, step);
    FailedIsOld(s.requests, {step.subscriberId}, SubscriberGone("subscriber_disconnected"));
    PurgeIsOld(d, step.now, step.order);
    OldOrNewTwice(s.requests, d.requests, Purge(d, step.now, step.order).requests);
  }

  lemma QueryIsNew(s: State, step: Step)
    requires Purges(step) && !IsJoin(step) && !step.Deregister?
    ensures OldOrNew(s.requests, Next(s, step).requests)
  {
    hide OldOrNew, Purge, DeliverAll, Deliver, OAuthTarget, Next;
    var purged := Purge(s, step.now, step.order);
    PurgeIsOld(s, step.now, step.order);
    if step.FanOut? {
      DeliverAllIsNew(purged, step.targets, step.requestId, step.tooLarge, step.broken, step.now);
    } else if step.ProxyOAuth? {
      var target := OAuthTarget(purged, step.oauthState, step.signed, step.now);
      if target.Some? {
        DeliverIsNew(purged, target.value, step.requestId, step.tooLarge, step.broken, step.now);
      }
    }
    QueryRequests(s, step);
    OldByItself(purged.requests);
    OldOrNewTwice(s.requests, purged.requests, Next(s, step).requests);
  }

  /** The requests after a step that purges and then at most delivers. */
  lemma QueryRequests(s: State, step: Step)
    requires Purges(step) && !IsJoin(step) && !step.Deregister?
    ensures var p := Purge(s, step.now, step.order);
      var t := Next(s, step).requests;
      if step.FanOut? then
        t == DeliverAll(p, step.targets, step.requestId, step.tooLarge, step.broken, step.now).requests
      else if step.ProxyOAuth? then
        var target := OAuthTarget(p, step.oauthState, step.signed, step.now);
        || t == p.requests
        || (target.Some? &&
            t == Deliver(p, target.value, step.requestId, step.tooLarge, step.broken, step.now).requests)
      else t == p.requests
  {
    hide Purge, DeliverAll, Deliver, CleanupAt, OAuthTarget, NextAlarm, Active;
    if step.AlarmFires? {
      AlarmRequests(s, step.now, step.order);
    }
  }

  lemma EntriesAreOldOrNew(s: State, step: Step)
    requires Inv(s) && Enabled(s, step)
    ensures OldOrNew(s.requests, Next(s, step).requests)
  {
    SocketHasRow(s, step);
    EnabledFacts(s, step);
    if IsJoin(step) {
      JoinIsOld(s, step);
    } else if step.Deregister? {
      DeregisterIsOld(s, step);
    } else if step.SocketGone? {
      DetachedRequests(s, step);
      FailedIsOld(s.requests, {s.sockets[step.socket].tag}, SubscriberGone("tunnel_disconnected"));
    } else if Purges(step) {
      QueryIsNew(s, step);
    } else {
      EventIsOld(s, step);
    }
  }

  lemma AnswerIsOld(r: Requests, requestId: string, o: Outcome)
    ensures OldOrNew(r, Answer(r, requestId, o))
  {
  }

  lemma TimeOutIsOld(r: Requests, promise: nat)
    ensures OldOrNew(r, TimeOut(r, promise))
  {
  }

  lemma EventIsOld(s: State, step: Step)
    requires !Purges(step) && !IsJoin(step) && !step.SocketGone?
    ensures OldOrNew(s.requests, Next(s, step).requests)
  {
    hide Answer, TimeOut, OldOrNew, NextFetch, NextRegister, NextHeartbeat, NextDeregister, NextPrune, NextProxy,
         NextSocketGone, NextAlarm, Purge, DeliverAll;
    OldByItself(s.requests);
    if step.Message? && step.message.Response? {
      AnswerIsOld(s.requests, step.message.id, Answered);
    } else if step.Message? && step.message.Error? {
      AnswerIsOld(s.requests, step.message.id, Errored);
    } else if step.TimerFires? {
      TimeOutIsOld(s.requests, step.promise);
    }
  }

  // ---- overtaken requests ------------------------------------------------------------------------

  /**
   A promise whose pending entry was overtaken by a later request under the same id ends in no other way
   than by its timer, whatever its subscriber answers.
   */
  lemma {:induction false} OvertakenTimesOut(s: State, steps: seq<Step>, p: nat)
    requires Inv(s) && Runs(s, steps)
    requires p in s.requests.outcomes && s.requests.outcomes[p] == [] && OwnerOf(s.requests, p).None?
    ensures var t := After(s, steps).requests;
      p in t.outcomes && (t.outcomes[p] == [] || t.outcomes[p] == [TimedOut])
    decreases |steps|
  {
    hide Inv, Enabled, Next, OwnedEnd;
    if steps != [] {
      var next := Next(s, steps[0]);
      PromiseAfter(s, steps[0], p);
      StepKeeps(s, steps[0]);
      if next.requests.outcomes[p] == [] {
        StaysOvertaken(s, steps[0], p);
        OvertakenTimesOut(next, steps[1..], p);
      } else {
        SettledForGood(next, steps[1..], p);
      }
    }
  }

  lemma StaysOvertaken(s: State, step: Step, p: nat)
    requires Inv(s) && Enabled(s, step) && p in s.requests.outcomes && OwnerOf(s.requests, p).None?
    ensures OwnerOf(Next(s, step).requests, p).None?
  {
    hide Inv, Enabled, Next, Effect, OldOrNew, Orderly, SettlementOk, PendingOk, OwnerOf;
    RequestsOk(s, step);
    EntriesAreOldOrNew(s, step);
    StepIsOrderly(s, step);
    SameRequests(s, step);
    OvertakenStays(s.requests, Next(s, step).requests, SendsAs(step), p);
  }

  lemma OvertakenStays(r: Requests, t: Requests, except: Option<string>, p: nat)
    requires SettlementOk(r) && p in r.outcomes && OldOrNew(r, t) && Orderly(r, t, except) && OwnerOf(r, p).None?
    ensures OwnerOf(t, p).None?
  {
    hide Owned;
  }

  lemma SameRequests(s: State, step: Step)
    ensures Next(s, step).requests == Effect(s, step).requests
  {
  }

  /**
   A timer deletes whatever its request id now stands for: a later request that took the id over is
   overtaken in its turn, and can only time out as well.
   */
  lemma TimerTakesItsKey(s: State, step: Step, q: nat)
    requires Inv(s) && Enabled(s, step) && step.TimerFires?
    ensures var k, t := s.requests.timers[step.promise].requestId, Next(s, step).requests;
      && k !in t.pending
      && (forall other :: other != k ==> (other in t.pending <==> other in s.requests.pending))
      && (q in s.requests.timers && s.requests.timers[q].requestId == k ==> OwnerOf(t, q).None?)
  {
  }

  /** How many of the first targets have a tunnel. */
  ghost function Tunnels(rows: map<string, Row>, targets: seq<string>): nat
    decreases |targets|
  {
    if targets == [] then 0
    else
      var last := targets[|targets| - 1];
      Tunnels(rows, targets[..|targets| - 1]) + if last in rows && rows[last].transport == Tunnel then 1 else 0
  }

  lemma {:induction false} FanOutPromises(s: State, ids: seq<string>, requestId: string, broken: set<string>, now: int)
    requires SettlementOk(s.requests)
    ensures var d := DeliverAll(s, ids, requestId, false, broken, now);
      && SettlementOk(d.requests) && d.sockets == s.sockets
      && d.requests.nextPromise == s.requests.nextPromise + Tunnels(s.rows, ids)
      && forall id ::
           (id in d.rows <==> id in s.rows) && (id in s.rows ==> d.rows[id].transport == s.rows[id].transport)
    decreases |ids|
  {
    FanningOutIsOrderly(s, ids, requestId, false, broken, now);
    FanOutFrame(s, ids, requestId, false, broken, now);
    forall id ensures var d := DeliverAll(s, ids, requestId, false, broken, now);
      (id in d.rows <==> id in s.rows) && (id in s.rows ==> d.rows[id].transport == s.rows[id].transport)
    {
      DeliveredRows(s, ids, requestId, false, broken, now, id);
    }
    if ids != [] {
      var front, last := ids[..|ids| - 1], ids[|ids| - 1];
      FanOutPromises(s, front, requestId, broken, now);
      var d := DeliverAll(s, front, requestId, false, broken, now);
      hide SettlementOk;
      if last in s.rows {
        DeliveryLaw(d, last, requestId, false, broken, now);
      }
    }
  }

  /** The promise of the i-th target of a fan-out, which has a tunnel. */
  ghost function PromiseFor(s: State, targets: seq<string>, i: nat): nat
    requires i < |targets|
  {
    s.requests.nextPromise + Tunnels(s.rows, targets[..i])
  }

  /** A target with a tunnel on which someone listens. */
  ghost predicate IsTunnelTarget(s: State, targets: seq<string>, i: nat)
    requires i < |targets|
  {
    targets[i] in s.rows && s.rows[targets[i]].transport == Tunnel && Listening(s, targets[i])
  }

  /** What a fan-out leaves of the i-th target's request: sent or failed, and its own unless a later one took its id. */
  ghost predicate IsFannedOut(s: State, t: Requests, targets: seq<string>, requestId: string, broken: set<string>,
                              now: int, i: nat)
    requires i < |targets|
  {
    var p := PromiseFor(s, targets, i);
    && p in t.outcomes
    && t.outcomes[p] == (if targets[i] in broken then [SendFailed] else [])
    && (targets[i] !in broken ==> p in t.timers && t.timers[p] == Timer(requestId, now + 10_000))
    && ((exists j :: i < j < |targets| && IsTunnelTarget(s, targets, j)) ==> OwnerOf(t, p).None?)
    && (targets[i] !in broken && (forall j :: i < j < |targets| ==> !IsTunnelTarget(s, targets, j)) ==>
          OwnerOf(t, p) == Some(targets[i]))
  }

  lemma {:induction false} FanOutSends(s: State, targets: seq<string>, requestId: string, broken: set<string>, now: int,
                                       i: nat)
    requires SettlementOk(s.requests) && i < |targets| && IsTunnelTarget(s, targets, i)
    ensures IsFannedOut(s, DeliverAll(s, targets, requestId, false, broken, now).requests, targets, requestId, broken,
                        now, i)
    decreases |targets|
  {
    var n := |targets| - 1;
    var front, last := targets[..n], targets[n];
    var d := DeliverAll(s, front, requestId, false, broken, now);
    FanOutPromises(s, front, requestId, broken, now);
    hide SettlementOk, IsFannedOut;
    if last in s.rows {
      DeliveryLaw(d, last, requestId, false, broken, now);
    }
    assert Listening(d, last) <==> Listening(s, last);
    var t := DeliverAll(s, targets, requestId, false, broken, now).requests;
    if i == n {
      LastIsFannedOut(s, d.requests, t, targets, requestId, broken, now);
    } else {
      FanOutSends(s, front, requestId, broken, now, i);
      NextPromiseIsNew(d.requests);
      FanOutPromises(s, targets, requestId, broken, now);
      WaitingIsUnsettled(t);
      EarlierIsFannedOut(s, d.requests, t, targets, requestId, broken, now, i);
    }
  }

  lemma WaitingIsUnsettled(r: Requests)
    requires SettlementOk(r)
    ensures forall q :: q in r.timers ==> q in r.outcomes && r.outcomes[q] == []
  {
  }

  lemma LastIsFannedOut(s: State, r: Requests, t: Requests, targets: seq<string>, requestId: string,
                        broken: set<string>, now: int)
    requires targets != [] && IsTunnelTarget(s, targets, |targets| - 1)
    requires var n := |targets| - 1;
      && r.nextPromise == PromiseFor(s, targets, n)
      && IsSent(r, t, true, targets[n] in broken, targets[n], requestId, now)
    ensures IsFannedOut(s, t, targets, requestId, broken, now, |targets| - 1)
  {
  }

  lemma EarlierIsFannedOut(s: State, r: Requests, t: Requests, targets: seq<string>, requestId: string,
                           broken: set<string>, now: int, i: nat)
    requires i < |targets| - 1
    requires forall q :: q in t.timers ==> q in t.outcomes && t.outcomes[q] == []
    requires var n := |targets| - 1;
      && IsFannedOut(s, r, targets[..n], requestId, broken, now, i)
      && r.nextPromise !in r.outcomes
      && if targets[n] in s.rows && s.rows[targets[n]].transport == Tunnel then
           IsSent(r, t, Listening(s, targets[n]), targets[n] in broken, targets[n], requestId, now)
         else t == r
    ensures IsFannedOut(s, t, targets, requestId, broken, now, i)
  {
    var n := |targets| - 1;
    var front := targets[..n];
    assert front[..i] == targets[..i];
    var p := PromiseFor(s, targets, i);
    assert forall j :: i < j < n ==> (IsTunnelTarget(s, targets, j) <==> IsTunnelTarget(s, front, j));
    if IsTunnelTarget(s, targets, n) {
      assert OwnerOf(t, p).None?;
    } else {
      assert OwnerOf(t, p) == OwnerOf(r, p);
    }
    hide IsTunnelTarget, Tunnels, Listening, OwnerOf, IsSent;
  }

  lemma TargetsListen(s: State, step: Step, i: nat)
    requires Enabled(s, step) && step.FanOut? && i < |step.targets|
    ensures var p := Purge(s, step.now, step.order);
      && step.targets[i] in p.rows
      && (IsTunnelTarget(p, step.targets, i) <==> p.rows[step.targets[i]].transport == Tunnel)
  {
    hide Purge, Removed;
    var p := Purge(s, step.now, step.order);
    assert step.targets[i] in step.targets;
    assert IsFanoutTarget(p, step.path, step.settings, step.targets[i]);
    assert HasOpen(p.sockets, step.targets[i]) <==> Listening(p, step.targets[i]);
  }

  lemma FanOutRequests(s: State, step: Step, i: nat)
    requires Inv(s) && Enabled(s, step) && step.FanOut? && !step.tooLarge && i < |step.targets|
    requires Purge(s, step.now, step.order).rows[step.targets[i]].transport == Tunnel
    ensures IsFannedOut(Purge(s, step.now, step.order), Next(s, step).requests, step.targets, step.requestId,
                        step.broken, step.now, i)
  {
    RequestsOk(s, step);
    TargetsListen(s, step, i);
    hide Inv, Enabled, Purge, IsFannedOut, IsTunnelTarget;
    PurgeAnswersNone(s, step.now, step.order);
    FanOutSends(Purge(s, step.now, step.order), step.targets, step.requestId, step.broken, step.now, i);
  }

  /**
   A fan-out sends one request id to all its tunnels, and only the last of them can answer: the request of
   every earlier tunnel ends by its timer, ten seconds later, whatever its subscriber says.
   */
  lemma EarlierTunnelsTimeOut(s: State, step: Step, steps: seq<Step>, i: nat, j: nat)
    requires Reachable(s) && Enabled(s, step) && step.FanOut? && !step.tooLarge && Runs(Next(s, step), steps)
    requires i < j < |step.targets| && step.targets[i] !in step.broken
    requires var rows := Purge(s, step.now, step.order).rows;
      rows[step.targets[i]].transport == Tunnel && rows[step.targets[j]].transport == Tunnel
    ensures var q := PromiseFor(Purge(s, step.now, step.order), step.targets, i);
      var t := After(Next(s, step), steps).requests;
      && q in Next(s, step).requests.timers
      && Next(s, step).requests.timers[q] == Timer(step.requestId, step.now + 10_000)
      && q in t.outcomes && (t.outcomes[q] == [] || t.outcomes[q] == [TimedOut])
  {
    ReachableInv(s);
    TargetsListen(s, step, j);
    FanOutRequests(s, step, i);
    StepKeeps(s, step);
    hide Inv, Enabled, Next, Purge, IsTunnelTarget, Tunnels;
    OvertakenTimesOut(Next(s, step), steps, PromiseFor(Purge(s, step.now, step.order), step.targets, i));
  }

  /** The last tunnel of a fan-out waits for an answer under the shared id. */
  lemma LastTunnelIsAwaited(s: State, step: Step, i: nat)
    requires Inv(s) && Enabled(s, step) && step.FanOut? && !step.tooLarge
    requires i < |step.targets| && step.targets[i] !in step.broken
    requires var rows := Purge(s, step.now, step.order).rows;
      && rows[step.targets[i]].transport == Tunnel
      && forall j :: i < j < |step.targets| ==> step.targets[j] in rows && rows[step.targets[j]].transport == Public
    ensures var q := PromiseFor(Purge(s, step.now, step.order), step.targets, i);
      OwnerOf(Next(s, step).requests, q) == Some(step.targets[i])
  {
    FanOutRequests(s, step, i);
    forall j | i < j < |step.targets| ensures !IsTunnelTarget(Purge(s, step.now, step.order), step.targets, j) {
    }
    hide Inv, Enabled, Next, Purge, Tunnels, OwnerOf;
  }
}
