/** Tunnel requests over whole runs: settled once, for good, and answerable until then. */
module RouteRequests {
  import opened Wrappers
  import opened RouteState
  import opened RouteSteps
  import opened RouteInvariant
  import opened RoutePrimitives
  import opened RouteDetach
  import opened RouteCarry
  import opened RouteReachable

  /** Promises keep what they were settled with, and no timer is armed again. */
  ghost predicate Grows(r: Requests, t: Requests) {
    forall p :: p in r.outcomes ==>
      && p in t.outcomes && r.outcomes[p] <= t.outcomes[p]
      && (p in t.timers ==> p in r.timers && t.timers[p] == r.timers[p])
  }

  /**
   The request id `k` belongs to promise `p` alone: no other armed timer would delete its entry, and
   while `p` waits its entry is in `pending`.
   */
  ghost predicate Owned(r: Requests, k: string, p: nat) {
    && (forall q :: q in r.timers && r.timers[q].requestId == k ==> q == p)
    && (p in r.timers ==> r.timers[p].requestId == k && k in r.pending && r.pending[k].promise == p)
  }

  /** Growth, and ownership of every key but the excepted one. */
  ghost predicate Orderly(r: Requests, t: Requests, except: Option<string>) {
    && Grows(r, t)
    && (SettlementOk(r) ==> SettlementOk(t))
    && (forall k, p :: SettlementOk(r) && p in r.outcomes && Owned(r, k, p) && except != Some(k) ==> Owned(t, k, p))
  }

  lemma OrderlyAlways(r: Requests, t: Requests, except: Option<string>)
    ensures Orderly(r, r, except)
    ensures Orderly(r, t, None) ==> Orderly(r, t, except)
  {
  }

  lemma OrderlyTwice(a: Requests, b: Requests, c: Requests, except: Option<string>)
    requires Orderly(a, b, None) && Orderly(b, c, except)
    ensures Orderly(a, c, except)
  {
    assert Grows(a, c);
  }

  lemma FailingIsOrderly(r: Requests, ids: set<string>, o: Outcome)
    ensures Orderly(r, Failed(r, ids, o), None)
  {
    if SettlementOk(r) {
      FailingSettles(r, ids, o);
    }
  }

  lemma AnsweringIsOrderly(r: Requests, requestId: string, o: Outcome)
    ensures Orderly(r, Answer(r, requestId, o), None)
  {
    hide SettlementOk, TimersSoon, PendingOk, Attach;
    if SettlementOk(r) {
      AnswerSettles(r, requestId, o);
    }
  }

  lemma TimingOutIsOrderly(r: Requests, promise: nat)
    ensures Orderly(r, TimeOut(r, promise), None)
  {
    if SettlementOk(r) {
      TimerSettles(r, promise);
    }
  }

  lemma SendingIsOrderly(s: State, id: string, requestId: string, broken: set<string>, now: int)
    requires SettlementOk(s.requests)
    ensures Orderly(s.requests, SendAndWait(s, id, requestId, broken, now).requests, Some(requestId))
  {
    SendSettles(s, id, requestId, broken, now);
    var r, t := s.requests, SendAndWait(s, id, requestId, broken, now).requests;
    forall k, p | p in r.outcomes && Owned(r, k, p) && k != requestId ensures Owned(t, k, p) {
    }
  }

  lemma DeliveringIsOrderly(s: State, id: string, requestId: string, tooLarge: bool, broken: set<string>, now: int)
    requires SettlementOk(s.requests)
    ensures Orderly(s.requests, Deliver(s, id, requestId, tooLarge, broken, now).requests, Some(requestId))
  {
    if id in s.rows && s.rows[id].transport == Tunnel && !tooLarge {
      SendingIsOrderly(Extend(s, id, now), id, requestId, broken, now);
    }
  }

  lemma OrderlyOften(a: Requests, b: Requests, c: Requests, except: Option<string>)
    requires SettlementOk(a) && Orderly(a, b, except) && Orderly(b, c, except)
    ensures Orderly(a, c, except)
  {
    assert Grows(a, c);
  }

  lemma {:induction false} FanningOutIsOrderly(s: State, ids: seq<string>, requestId: string, tooLarge: bool,
                                               broken: set<string>, now: int)
    requires SettlementOk(s.requests)
    ensures Orderly(s.requests, DeliverAll(s, ids, requestId, tooLarge, broken, now).requests, Some(requestId))
    decreases |ids|
  {
    if ids != [] {
      var front := ids[..|ids| - 1];
      FanningOutIsOrderly(s, front, requestId, tooLarge, broken, now);
      var d := DeliverAll(s, front, requestId, tooLarge, broken, now);
      DeliveringIsOrderly(d, ids[|ids| - 1], requestId, tooLarge, broken, now);
      OrderlyOften(s.requests, d.requests, DeliverAll(s, ids, requestId, tooLarge, broken, now).requests,
                   Some(requestId));
    }
  }

  // ---- steps ---------------------------------------------------------------------

  /** The request id under which a step sends, if it sends. */
  function SendsAs(step: Step): Option<string> {
    if step.FanOut? || step.ProxyOAuth? then Some(step.requestId) else None
  }

  lemma PurgeIsOrderly(s: State, now: int, order: seq<string>)
    ensures Orderly(s.requests, Purge(s, now, order).requests, None)
  {
    FailingIsOrderly(s.requests, Removed(s, now), SubscriberGone("tunnel_disconnected"));
  }

  lemma JoinIsOrderly(w: State, j: Join, draw: Draw, now: int)
    ensures Orderly(w.requests, Attach(w, j, draw, now).requests, None)
  {
    if HasEnvironment(w.rows, j.environmentId) {
      FailingIsOrderly(w.requests, {EnvironmentOwner(w.rows, j.environmentId)}, SubscriberGone("subscriber_replaced"));
    }
  }

  lemma FetchIsOrderly(s: State, step: Step)
    requires step.Fetch?
    ensures Orderly(s.requests, NextFetch(s, step).requests, None)
  {
    hide Orderly;
    OrderlyAlways(s.requests, s.requests, None);
    PurgeIsOrderly(s, step.now, step.order);
    var w := Welcomed(s, step.now, step.routeId, step.order);
    JoinIsOrderly(w, TunnelJoin(step), step.draw, step.now);
    OrderlyTwice(s.requests, w.requests, Attach(w, TunnelJoin(step), step.draw, step.now).requests, None);
  }

  lemma RegisterIsOrderly(s: State, step: Step)
    requires step.Register?
    ensures Orderly(s.requests, NextRegister(s, step).requests, None)
  {
    hide Orderly;
    PurgeIsOrderly(s, step.now, step.order);
    var w := Welcomed(s, step.now, step.routeId, step.order);
    JoinIsOrderly(w, PublicJoin(step), step.draw, step.now);
    OrderlyTwice(s.requests, w.requests, Attach(w, PublicJoin(step), step.draw, step.now).requests, None);
  }

  lemma DeregisterIsOrderly(s: State, now: int, id: string, order: seq<string>)
    ensures Orderly(s.requests, NextDeregister(s, now, id, order).requests, None)
  {
    hide Orderly, StaleClosed, RemovalEvents, KeptRows;
    var d := Dropped(s, id);
    FailingIsOrderly(s.requests, {id}, SubscriberGone("subscriber_disconnected"));
    assert d.requests == Failed(s.requests, {id}, SubscriberGone("subscriber_disconnected"));
    PurgeIsOrderly(d, now, order);
    OrderlyTwice(s.requests, d.requests, Purge(d, now, order).requests, None);
  }

  lemma DetachIsOrderly(s: State, step: Step)
    requires Inv(s) && step.SocketGone? && step.socket in s.sockets
    ensures Orderly(s.requests, NextSocketGone(s, step.now, step.socket, step.stale).requests, None)
  {
    hide Orderly;
    DetachCases(s, step.now, step.socket, step.stale);
    FailingIsOrderly(s.requests, {s.sockets[step.socket].tag}, SubscriberGone("tunnel_disconnected"));
  }

  lemma ProxyIsOrderly(s: State, step: Step)
    requires SettlementOk(s.requests) && step.ProxyOAuth?
    ensures Orderly(s.requests, NextProxy(s, step).requests, Some(step.requestId))
  {
    hide Orderly, Purge, SettlementOk, TimersSoon, PendingOk;
    OrderlyAlways(s.requests, Purge(s, step.now, step.order).requests, Some(step.requestId));
    var p := Purge(s, step.now, step.order);
    PurgeIsOrderly(s, step.now, step.order);
    var target := OAuthTarget(p, step.oauthState, step.signed, step.now);
    if target.Some? {
      DeliveringIsOrderly(p, target.value, step.requestId, step.tooLarge, step.broken, step.now);
      OrderlyTwice(s.requests, p.requests,
                   Deliver(p, target.value, step.requestId, step.tooLarge, step.broken,
                           step.now).requests, Some(step.requestId));
    }
  }

  lemma FanOutIsOrderly(s: State, step: Step)
    requires SettlementOk(s.requests) && step.FanOut?
    ensures Orderly(s.requests, Effect(s, step).requests, Some(step.requestId))
  {
    hide Orderly;
    var p := Purge(s, step.now, step.order);
    PurgeIsOrderly(s, step.now, step.order);
    FanningOutIsOrderly(p, step.targets, step.requestId, step.tooLarge, step.broken, step.now);
    OrderlyTwice(s.requests, p.requests,
                 DeliverAll(p, step.targets, step.requestId, step.tooLarge, step.broken,
                            step.now).requests, Some(step.requestId));
  }

  lemma MessageIsOrderly(s: State, now: int, socket: nat, message: ClientMessage)
    ensures Orderly(s.requests, NextMessage(s, now, socket, message).requests, None)
  {
    hide Orderly;
    OrderlyAlways(s.requests, s.requests, None);
    match message
    case Response(id) => AnsweringIsOrderly(s.requests, id, Answered);
    case Error(id) => AnsweringIsOrderly(s.requests, id, Errored);
    case _ =>
  }

  lemma HeartbeatIsOrderly(s: State, now: int, id: string, order: seq<string>)
    ensures Orderly(s.requests, NextHeartbeat(s, now, id, order).requests, None)
  {
    hide Orderly;
    PurgeIsOrderly(s, now, order);
  }

  lemma CallIsOrderly(s: State, step: Step)
    requires IsCall(step)
    ensures Orderly(s.requests, Effect(s, step).requests, None)
  {
    hide Orderly, Purge, Removed, HasEnvironment, IsLive, NextFetch, NextRegister, Admitted, Enrolled, KeptRows;
    OrderlyAlways(s.requests, s.requests, None);
    match step
    case Fetch(_, _, _, _, _, _, _, _, _) => FetchIsOrderly(s, step);
    case Register(_, _, _, _, _, _, _, _, _) => RegisterIsOrderly(s, step);
    case Heartbeat(now, id, order) => HeartbeatIsOrderly(s, now, id, order);
    case Deregister(now, id, order) => DeregisterIsOrderly(s, now, id, order);
    case Bind(now, _, _, order) => PurgeIsOrderly(s, now, order);
    case _ =>
  }

  lemma QueryIsOrderly(s: State, step: Step)
    requires SettlementOk(s.requests) && IsQuery(step)
    ensures Orderly(s.requests, Effect(s, step).requests, SendsAs(step))
  {
    hide Orderly, Purge, Dropped, ReclaimedRow, CreatedRow, NextProxy, NextMessage, NextSocketGone, NextAlarm, Failed,
         PromisesOf, PendingWithout, Settled;
    match step
    case GetActive(now, order) => PurgeIsOrderly(s, now, order);
    case Prune(now, order) => PurgeIsOrderly(s, now, order);
    case CountFanout(now, order) => PurgeIsOrderly(s, now, order);
    case FanOut(_, _, _, _, _, _, _, _) => FanOutIsOrderly(s, step);
    case ProxyOAuth(_, _, _, _, _, _, _) => ProxyIsOrderly(s, step);
    case _ =>
  }

  lemma EventIsOrderly(s: State, step: Step)
    requires Inv(s) && Enabled(s, step) && !IsCall(step) && !IsQuery(step)
    ensures Orderly(s.requests, Effect(s, step).requests, None)
  {
    hide Orderly, Core, Inv;
    OrderlyAlways(s.requests, s.requests, None);
    match step
    case Message(now, socket, message) => MessageIsOrderly(s, now, socket, message);
    case SocketGone(_, _, _) => DetachIsOrderly(s, step);
    case TimerFires(_, promise) => TimingOutIsOrderly(s.requests, promise);
    case AlarmFires(now, order) => PurgeIsOrderly(s.(alarm := None), now, order);
    case _ =>
  }

  lemma StepIsOrderly(s: State, step: Step)
    requires Inv(s) && Enabled(s, step)
    ensures Orderly(s.requests, Effect(s, step).requests, SendsAs(step))
  {
    hide Orderly;
    if IsCall(step) {
      CallIsOrderly(s, step);
    } else if IsQuery(step) {
      QueryIsOrderly(s, step);
    } else {
      EventIsOrderly(s, step);
    }
  }

  // ---- runs ------------------------------------------------------------------------

  /** Once settled, a promise keeps its one outcome through every run. */
  lemma {:induction false} SettledForGood(s: State, steps: seq<Step>, p: nat)
    requires Inv(s) && Runs(s, steps) && p in s.requests.outcomes && |s.requests.outcomes[p]| == 1
    ensures var t := After(s, steps).requests;
      p in t.outcomes && t.outcomes[p] == s.requests.outcomes[p]
    decreases |steps|
  {
    if steps != [] {
      StepIsOrderly(s, steps[0]);
      StepKeeps(s, steps[0]);
      SettledForGood(Next(s, steps[0]), steps[1..], p);
    }
  }

  /** No later delivery reuses the request id. */
  ghost predicate NotReused(steps: seq<Step>, k: string) {
    forall i :: 0 <= i < |steps| ==> SendsAs(steps[i]) != Some(k)
  }

  lemma {:induction false} OwnershipLasts(s: State, steps: seq<Step>, k: string, p: nat)
    requires Inv(s) && Runs(s, steps) && p in s.requests.outcomes && Owned(s.requests, k, p) && NotReused(steps, k)
    ensures var t := After(s, steps).requests;
      p in t.outcomes && Owned(t, k, p)
    decreases |steps|
  {
    if steps != [] {
      StepIsOrderly(s, steps[0]);
      StepKeeps(s, steps[0]);
      OwnershipLasts(Next(s, steps[0]), steps[1..], k, p);
    }
  }

  /** A request sent under an id nobody is waiting on owns that id. */
  lemma SendOwns(s: State, id: string, requestId: string, broken: set<string>, now: int)
    requires SettlementOk(s.requests)
    requires forall q :: q in s.requests.timers ==> s.requests.timers[q].requestId != requestId
    ensures var r := SendAndWait(s, id, requestId, broken, now).requests;
      s.requests.nextPromise in r.outcomes && Owned(r, requestId, s.requests.nextPromise)
  {
  }

  /** How an answer or error settles a promise. */
  function OutcomeOf(message: ClientMessage): Outcome {
    if message.Response? then Answered else Errored
  }

  /**
   A request whose id is not reused stays answerable: after any run, the first answer or error carrying
   its id settles exactly that promise, if nothing has settled it before.
   */
  lemma UnsharedRequestIsAnswerable(s: State, steps: seq<Step>, k: string, p: nat, answer: Step)
    requires Inv(s) && Runs(s, steps) && p in s.requests.outcomes && Owned(s.requests, k, p) && NotReused(steps, k)
    requires answer.Message? && (answer.message == Response(k) || answer.message == Error(k))
    requires Enabled(After(s, steps), answer)
    ensures var before := After(s, steps).requests;
      var after := Next(After(s, steps), answer).requests;
      && p in before.outcomes && p in after.outcomes
      && after.outcomes[p] == (if before.outcomes[p] == [] then [OutcomeOf(answer.message)] else before.outcomes[p])
      && forall q :: q in before.outcomes && q != p ==> after.outcomes[q] == before.outcomes[q]
  {
    OwnershipLasts(s, steps, k, p);
    RunKeeps(s, steps);
    AnswerReaches(After(s, steps).requests, k, p, OutcomeOf(answer.message));
  }

  lemma AnswerReaches(r: Requests, k: string, p: nat, o: Outcome)
    requires SettlementOk(r) && p in r.outcomes && Owned(r, k, p)
    ensures var after := Answer(r, k, o);
      && p in after.outcomes
      && after.outcomes[p] == (if r.outcomes[p] == [] then [o] else r.outcomes[p])
      && forall q :: q in r.outcomes && q != p ==> after.outcomes[q] == r.outcomes[q]
  {
    if k in r.pending {
      assert r.timers[r.pending[k].promise].requestId == k;
      assert [] + [o] == [o];
    }
  }

  /**
   In every reachable state each promise has been settled at most once, waits exactly while its own
   timer is armed and at most ten seconds from firing, and every pending entry is a waiting promise:
   also when a fan-out overwrote entries under a shared request id.
   */
  lemma ExactlyOnceSettlement(s: State, p: nat)
    requires Reachable(s) && p in s.requests.outcomes
    ensures |s.requests.outcomes[p]| <= 1
    ensures s.requests.outcomes[p] == [] <==> p in s.requests.timers
    ensures p in s.requests.timers ==> s.requests.timers[p].dueAt <= s.clock + DELIVERY_TIMEOUT_MS
    ensures forall k :: k in s.requests.pending && s.requests.pending[k].promise == p ==>
      s.requests.outcomes[p] == [] && s.requests.timers[p].requestId == k
  {
    ReachableInv(s);
  }

  // ---- who answers -------------------------------------------------------------------

  /** The promises settled by an answer. */
  ghost function AnsweredIn(r: Requests): set<nat> {
    set p | p in r.outcomes && Answered in r.outcomes[p]
  }

  lemma FailingAnswersNone(r: Requests, ids: set<string>, o: Outcome)
    requires o != Answered
    ensures AnsweredIn(Failed(r, ids, o)) == AnsweredIn(r)
  {
    hide PendingWithout, PromisesOf;
    var t := Failed(r, ids, o);
    forall p | p in r.outcomes ensures p in t.outcomes && (Answered in t.outcomes[p] <==> Answered in r.outcomes[p]) {
    }
  }

  lemma TimingOutAnswersNone(r: Requests, promise: nat)
    ensures AnsweredIn(TimeOut(r, promise)) == AnsweredIn(r)
  {
  }

  lemma SendingAnswersNone(r: Requests, open: bool, throws: bool, id: string, requestId: string, now: int)
    requires r.nextPromise !in r.outcomes
    ensures AnsweredIn(Sending(r, open, throws, id, requestId, now)) == AnsweredIn(r)
  {
  }

  lemma DeliveringAnswersNone(s: State, id: string, requestId: string, tooLarge: bool, broken: set<string>, now: int)
    requires SettlementOk(s.requests)
    ensures AnsweredIn(Deliver(s, id, requestId, tooLarge, broken, now).requests) == AnsweredIn(s.requests)
  {
    hide Sending, AnsweredIn;
    NextPromiseIsNew(s.requests);
    SendingAnswersNone(s.requests, HasOpen(Extend(s, id, now).sockets, id), id in broken, id, requestId, now);
  }

  lemma NextPromiseIsNew(r: Requests)
    requires SettlementOk(r)
    ensures r.nextPromise !in r.outcomes
  {
  }

  lemma {:induction false} FanningOutAnswersNone(s: State, ids: seq<string>, requestId: string, tooLarge: bool,
                                                 broken: set<string>, now: int)
    requires SettlementOk(s.requests)
    ensures AnsweredIn(DeliverAll(s, ids, requestId, tooLarge, broken, now).requests) == AnsweredIn(s.requests)
    decreases |ids|
  {
    hide AnsweredIn, Deliver, SettlementOk;
    if ids != [] {
      var front := ids[..|ids| - 1];
      FanningOutAnswersNone(s, front, requestId, tooLarge, broken, now);
      FanningOutIsOrderly(s, front, requestId, tooLarge, broken, now);
      DeliveringAnswersNone(DeliverAll(s, front, requestId, tooLarge, broken, now), ids[|ids| - 1], requestId,
                            tooLarge, broken, now);
    }
  }

  lemma PurgeAnswersNone(s: State, now: int, order: seq<string>)
    ensures AnsweredIn(Purge(s, now, order).requests) == AnsweredIn(s.requests)
    ensures SettlementOk(s.requests) ==> SettlementOk(Purge(s, now, order).requests)
  {
    hide AnsweredIn, SettlementOk, Failed;
    FailingAnswersNone(s.requests, Removed(s, now), SubscriberGone("tunnel_disconnected"));
    if SettlementOk(s.requests) {
      FailingSettles(s.requests, Removed(s, now), SubscriberGone("tunnel_disconnected"));
    }
  }

  lemma JoinAnswersNone(w: State, j: Join, draw: Draw, now: int)
    ensures AnsweredIn(Attach(w, j, draw, now).requests) == AnsweredIn(w.requests)
  {
    hide AnsweredIn, Failed, ClosedFor, TagSet;
    if HasEnvironment(w.rows, j.environmentId) {
      FailingAnswersNone(w.requests, {EnvironmentOwner(w.rows, j.environmentId)},
                         SubscriberGone("subscriber_replaced"));
    }
  }

  lemma CallAnswersNone(s: State, step: Step)
    requires IsCall(step)
    ensures AnsweredIn(Effect(s, step).requests) == AnsweredIn(s.requests)
  {
    hide AnsweredIn, Purge, Attach, Failed, IsRejected, JoinedId, CleanupAt, ClosedFor, TagSet;
    hide NextFetch, NextRegister, NextDeregister;
    PurgeAnswersNone(s, step.now, step.order);
    if IsJoin(step) {
      JoinCallAnswersNone(s, step);
    } else if step.Deregister? {
      DeregisterAnswersNone(s, step.now, step.subscriberId, step.order);
    }
  }

  lemma JoinCallAnswersNone(s: State, step: Step)
    requires IsJoin(step)
    ensures step.Fetch? ==> AnsweredIn(NextFetch(s, step).requests) == AnsweredIn(s.requests)
    ensures step.Register? ==> AnsweredIn(NextRegister(s, step).requests) == AnsweredIn(s.requests)
  {
    hide AnsweredIn, Purge, Attach, IsRejected, JoinedId, CleanupAt;
    PurgeAnswersNone(s, step.now, step.order);
    var w := Welcomed(s, step.now, step.routeId, step.order);
    if step.Fetch? {
      JoinAnswersNone(w, TunnelJoin(step), step.draw, step.now);
    } else {
      JoinAnswersNone(w, PublicJoin(step), step.draw, step.now);
    }
  }

  lemma DeregisterAnswersNone(s: State, now: int, id: string, order: seq<string>)
    ensures AnsweredIn(NextDeregister(s, now, id, order).requests) == AnsweredIn(s.requests)
  {
    hide AnsweredIn, Purge, Dropped, CleanupAt;
    DroppingAnswersNone(s, id);
    PurgeAnswersNone(Dropped(s, id), now, order);
  }

  lemma DroppingAnswersNone(s: State, id: string)
    ensures AnsweredIn(Dropped(s, id).requests) == AnsweredIn(s.requests)
  {
    hide AnsweredIn, Failed, ClosedFor, TagSet;
    FailingAnswersNone(s.requests, {id}, SubscriberGone("subscriber_disconnected"));
  }

  lemma QueryAnswersNone(s: State, step: Step)
    requires IsQuery(step) && SettlementOk(s.requests)
    ensures AnsweredIn(Effect(s, step).requests) == AnsweredIn(s.requests)
  {
    hide AnsweredIn, Purge, Deliver, DeliverAll, OAuthTarget, SettlementOk, Active;
    PurgeAnswersNone(s, step.now, step.order);
    var p := Purge(s, step.now, step.order);
    if step.FanOut? {
      FanningOutAnswersNone(p, step.targets, step.requestId, step.tooLarge, step.broken, step.now);
    } else if step.ProxyOAuth? {
      var target := OAuthTarget(p, step.oauthState, step.signed, step.now);
      if target.Some? {
        DeliveringAnswersNone(p, target.value, step.requestId, step.tooLarge, step.broken, step.now);
      }
    }
  }

  /** A response message that carries the id under which the promise waits. */
  ghost predicate Answers(s: State, step: Step, p: nat) {
    && step.Message? && step.message.Response?
    && step.message.id in s.requests.pending && s.requests.pending[step.message.id].promise == p
  }

  lemma MessageAnswers(s: State, now: int, socket: nat, message: ClientMessage, p: nat)
    requires p in AnsweredIn(NextMessage(s, now, socket, message).requests) && p !in AnsweredIn(s.requests)
    ensures Answers(s, Message(now, socket, message), p)
  {
  }

  lemma EventAnswers(s: State, step: Step, p: nat)
    requires Inv(s) && Enabled(s, step) && !IsCall(step) && !IsQuery(step)
    requires p in AnsweredIn(Effect(s, step).requests) && p !in AnsweredIn(s.requests)
    ensures Answers(s, step, p)
  {
    hide AnsweredIn, Answers, Purge, Failed, TimeOut, NextMessage, NextSocketGone, CleanupAt;
    if step.Message? {
      MessageAnswers(s, step.now, step.socket, step.message, p);
    } else if step.SocketGone? {
      DetachingAnswersNone(s, step);
    } else if step.TimerFires? {
      TimingOutAnswersNone(s.requests, step.promise);
    } else if step.AlarmFires? {
      PurgeAnswersNone(s.(alarm := None), step.now, step.order);
    }
  }

  lemma DetachingAnswersNone(s: State, step: Step)
    requires Inv(s) && Enabled(s, step) && step.SocketGone?
    ensures AnsweredIn(NextSocketGone(s, step.now, step.socket, step.stale).requests) == AnsweredIn(s.requests)
  {
    hide AnsweredIn, Failed;
    DetachCases(s, step.now, step.socket, step.stale);
    FailingAnswersNone(s.requests, {s.sockets[step.socket].tag}, SubscriberGone("tunnel_disconnected"));
  }

  /** Only a response message that carries its id settles a promise with an answer. */
  lemma StepAnswers(s: State, step: Step, p: nat)
    requires Inv(s) && Enabled(s, step)
    requires p in AnsweredIn(Next(s, step).requests) && p !in AnsweredIn(s.requests)
    ensures Answers(s, step, p)
  {
    hide AnsweredIn, Answers, Effect;
    if IsCall(step) {
      CallAnswersNone(s, step);
    } else if IsQuery(step) {
      QueryAnswersNone(s, step);
    } else {
      EventAnswers(s, step, p);
    }
  }

  /** A promise that a run finds answered was answered by a client's response message in that run. */
  lemma {:induction false} AnswerCameFromClient(s: State, steps: seq<Step>, p: nat)
    requires Inv(s) && Runs(s, steps)
    requires p in AnsweredIn(After(s, steps).requests) && p !in AnsweredIn(s.requests)
    ensures exists i :: 0 <= i < |steps| && Answers(After(s, steps[..i]), steps[i], p)
    decreases |steps|
  {
    hide AnsweredIn, Answers, Enabled, Next, Inv;
    if steps != [] {
      var next := Next(s, steps[0]);
      StepKeeps(s, steps[0]);
      assert steps[..0] == [];
      if p in AnsweredIn(next.requests) {
        StepAnswers(s, steps[0], p);
        assert Answers(After(s, steps[..0]), steps[0], p);
      } else {
        AnswerCameFromClient(next, steps[1..], p);
        var i :| 0 <= i < |steps[1..]| && Answers(After(next, steps[1..][..i]), steps[1..][i], p);
        AfterPrefix(s, steps, i);
        assert Answers(After(s, steps[..i + 1]), steps[i + 1], p);
      }
    }
  }

  lemma AfterPrefix(s: State, steps: seq<Step>, i: nat)
    requires i < |steps| && steps != []
    ensures After(s, steps[..i + 1]) == After(Next(s, steps[0]), steps[1..][..i])
  {
    hide Next;
    assert steps[..i + 1][1..] == steps[1..][..i];
  }
}
