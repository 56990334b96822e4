/** The invariant over whole runs. */
module RouteReachable {
  import opened Wrappers
  import opened RouteState
  import opened RouteSteps
  import opened RouteInvariant
  import opened RoutePrimitives
  import opened RouteKeeps
  import opened RouteDetach
  import opened RouteCarry

  lemma ClockAdvances(s: State, now: int)
    requires Inv(s) && s.clock <= now
    ensures InvAt(s, now)
  {
  }

  lemma CallKeeps(s: State, step: Step)
    requires Enabled(s, step) && InvAt(s, step.now) && IsCall(step)
    ensures InvAt(Effect(s, step), step.now)
  {
    hide StaleClosed, RemovalEvents, HasEnvironment, IsLive;
    match step
    case Fetch(_, _, _, _, _, _, _, _, _) => FetchKeeps(s, step);
    case Register(_, _, _, _, _, _, _, _, _) => RegisterKeeps(s, step);
    case Heartbeat(now, id, order) => HeartbeatKeeps(s, now, id, order);
    case Deregister(now, id, order) => DeregisterKeeps(s, now, id, order);
    case Bind(now, id, boundState, order) => BindKeeps(s, now, id, boundState, order);
    case _ =>
  }

  lemma QueryKeeps(s: State, step: Step)
    requires Enabled(s, step) && InvAt(s, step.now) && IsQuery(step)
    ensures InvAt(Effect(s, step), step.now)
  {
    hide Core, AlarmOk, IndexOk, Purge, Removed, NextProxy, NextPrune, DeliverAll, IsFanoutList, Enumerates;
    match step
    case GetActive(now, order) => PurgeKeeps(s, now, order); FlushKeeps(Purge(s, now, order), now);
    case Prune(now, order) => PruneKeeps(s, now, order);
    case CountFanout(now, order) => PurgeKeeps(s, now, order);
    case FanOut(now, _, _, targets, requestId, tooLarge, broken, order) =>
      PurgeKeeps(s, now, order);
      DeliverAllKeeps(Purge(s, now, order), targets, requestId, tooLarge, broken, now);
    case ProxyOAuth(_, _, _, _, _, _, _) => ProxyKeeps(s, step);
    case _ =>
  }

  lemma MessageKeeps(s: State, now: int, socket: nat, message: ClientMessage)
    requires InvAt(s, now) && socket in s.sockets
    ensures InvAt(NextMessage(s, now, socket, message), now)
  {
    match message
    case Response(id) => AnswerKeeps(s, id, Answered, now);
    case Error(id) => AnswerKeeps(s, id, Errored, now);
    case Beat => ExtendKeeps(s, s.sockets[socket].tag, now);
    case Noise =>
  }

  lemma AddingKeeps(s: State, now: int)
    requires InvAt(s, now)
    ensures InvAt(s.(indexed := true), now)
  {
    assert History(s.(indexed := true)) == History(s);
  }

  lemma EventKeeps(s: State, step: Step)
    requires Enabled(s, step) && InvAt(s, step.now) && !IsCall(step) && !IsQuery(step)
    ensures InvAt(Effect(s, step), step.now)
  {
    hide InvAt, Core, NextProxy, NextMessage, NextSocketGone, NextAlarm;
    match step
    case Message(now, socket, message) => MessageKeeps(s, now, socket, message);
    case SocketGone(now, socket, stale) => SocketGoneKeeps(s, now, socket, stale);
    case PeerClosing(now, socket) => SocketTouched(s, socket, s.sockets[socket].(open := false), now);
    case AutoPong(now, socket) => SocketTouched(s, socket, s.sockets[socket].(lastPing := Some(now)), now);
    case TimerFires(now, promise) => TimerKeeps(s, promise, now);
    case AlarmFires(now, order) => AlarmKeeps(s, now, order);
    case FlushLog(now) => FlushKeeps(s, now);
    case AddToIndex(now) => AddingKeeps(s, now);
    case _ =>
  }

  lemma EffectKeeps(s: State, step: Step)
    requires Enabled(s, step) && InvAt(s, step.now)
    ensures InvAt(Effect(s, step), step.now)
  {
    if IsCall(step) {
      CallKeeps(s, step);
    } else if IsQuery(step) {
      QueryKeeps(s, step);
    } else {
      EventKeeps(s, step);
    }
  }

  lemma StepKeeps(s: State, step: Step)
    requires Inv(s) && Enabled(s, step)
    ensures Inv(Next(s, step))
  {
    ClockAdvances(s, step.now);
    EffectKeeps(s, step);
    var e := Effect(s, step);
    assert InvAt(e.(clock := step.now), step.now);
  }

  lemma InitialHolds(s: State)
    requires Initial(s)
    ensures Inv(s)
  {
    assert History(s) == [];
  }

  /** Every state of every run satisfies the joint invariant. */
  lemma {:induction false} RunKeeps(s: State, steps: seq<Step>)
    requires Inv(s) && Runs(s, steps)
    ensures Inv(After(s, steps))
    decreases |steps|
  {
    if steps != [] {
      StepKeeps(s, steps[0]);
      RunKeeps(Next(s, steps[0]), steps[1..]);
    }
  }

  ghost predicate Reachable(s: State) {
    exists s0: State, steps: seq<Step> :: Initial(s0) && Runs(s0, steps) && s == After(s0, steps)
  }

  lemma ReachableInv(s: State)
    requires Reachable(s)
    ensures Inv(s)
  {
    var s0: State, steps: seq<Step> :| Initial(s0) && Runs(s0, steps) && s == After(s0, steps);
    InitialHolds(s0);
    RunKeeps(s0, steps);
  }
}
