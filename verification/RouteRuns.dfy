/** What whole runs of a per-route object guarantee. */
module RouteRuns {
  import opened Wrappers
  import opened RouteState
  import opened RouteSteps
  import opened RouteInvariant
  import opened RouteKeeps
  import opened RouteDetach
  import opened RouteCarry
  import opened RouteReachable

  // ---- reconnect continuity ------------------------------------------------------

  /** No step of the run deregisters this subscriber. */
  ghost predicate NoDeregister(steps: seq<Step>, id: string) {
    forall i :: 0 <= i < |steps| ==> !(steps[i].Deregister? && steps[i].subscriberId == id)
  }

  /** No step of the run starts at or after the deadline. */
  ghost predicate Before(steps: seq<Step>, deadline: int) {
    forall i :: 0 <= i < |steps| ==> steps[i].now < deadline
  }

  ghost predicate NoRebind(steps: seq<Step>, st: string) {
    forall i :: 0 <= i < |steps| ==> !(steps[i].Bind? && steps[i].boundState == st)
  }

  lemma StepRetains(s: State, step: Step, id: string)
    requires Inv(s) && Enabled(s, step) && id in s.rows
    requires s.rows[id].environmentId.Some? && step.now < s.rows[id].expiresAt
    requires !(step.Deregister? && step.subscriberId == id)
    ensures Retains(s.rows, Next(s, step).rows, id)
  {
    hide Next, Effect;
    StepSummary(s, step);
    if !RefusedBind(step) {
      SummaryRetains(s, step, Next(s, step), id);
    }
  }

  /**
   An environment row outlives every run that ends before its lease does, short of its own
   deregistration: same id, same birth, same forward token, and a lease that only grows.
   */
  lemma {:induction false} RowSurvives(s: State, steps: seq<Step>, id: string, deadline: int)
    requires Inv(s) && Runs(s, steps) && id in s.rows && s.rows[id].environmentId.Some?
    requires deadline <= s.rows[id].expiresAt
    requires Before(steps, deadline) && NoDeregister(steps, id)
    ensures Retains(s.rows, After(s, steps).rows, id)
    decreases |steps|
  {
    hide Inv, Core;
    if steps != [] {
      StepRetains(s, steps[0], id);
      StepKeeps(s, steps[0]);
      RowSurvives(Next(s, steps[0]), steps[1..], id, deadline);
    }
  }

  lemma InvReferences(s: State)
    requires Inv(s)
    ensures RowsOk(s.rows, s.usedIds, s.clock) && BindingsOk(s.bindings, s.rows)
  {
  }

  lemma StepKeepsBinding(s: State, step: Step, st: string)
    requires Inv(s) && Enabled(s, step) && !(step.Bind? && step.boundState == st)
    ensures KeepsBinding(s, step.now, Next(s, step), st)
  {
    hide Enabled, Next, Summary, RowsOk;
    InvReferences(s);
    EnabledFacts(s, step);
    StepSummary(s, step);
    if !RefusedBind(step) {
      SummaryKeepsBinding(s, step, Next(s, step), st);
    }
  }

  lemma StepNeverRevives(s: State, step: Step, id: string)
    requires Inv(s) && Enabled(s, step) && id in s.usedIds && id !in s.rows
    ensures id !in Next(s, step).rows && id in Next(s, step).usedIds
  {
    hide Next, Effect;
    StepSummary(s, step);
    if !RefusedBind(step) {
      NeverRevives(s, step, Next(s, step), id);
    }
  }

  /** A subscriber id that lost its row never has one again. */
  lemma {:induction false} GoneForGood(s: State, steps: seq<Step>, id: string)
    requires Inv(s) && Runs(s, steps) && id in s.usedIds && id !in s.rows
    ensures id !in After(s, steps).rows
    decreases |steps|
  {
    if steps != [] {
      StepNeverRevives(s, steps[0], id);
      StepKeeps(s, steps[0]);
      GoneForGood(Next(s, steps[0]), steps[1..], id);
    }
  }

  /**
   A binding that is not rebound is there at the end of a run exactly when it has not expired by the
   last purge that could drop it and its subscriber's row is still there; and it never changes.
   */
  lemma {:induction false} BindingSurvives(s: State, steps: seq<Step>, st: string, b: Binding)
    requires Inv(s) && Runs(s, steps) && NoRebind(steps, st)
    requires st in s.bindings && s.bindings[st] == b
    ensures var t := After(s, steps);
      && (st in t.bindings ==> t.bindings[st] == b)
      && (Before(steps, b.expiresAt) && b.subscriberId in t.rows ==> st in t.bindings)
    decreases |steps|
  {
    hide Next, KeptRows, SocketsOk, SocketTags, AnonymousHaveSocket, Purge, HasCurrent, HasOpen, Listed, IndexOk,
         AlarmOk, RouteIdOk, Enabled, StaleClosed, RemovalEvents, Enumerates;
    if steps != [] {
      var next := Next(s, steps[0]);
      StepKeepsBinding(s, steps[0], st);
      StepKeeps(s, steps[0]);
      assert b.subscriberId in s.usedIds;
      StepUses(s, steps[0]);
      if st in next.bindings {
        BindingSurvives(next, steps[1..], st, b);
      } else {
        StaysUnbound(next, steps[1..], st);
        if Before(steps, b.expiresAt) {
          assert steps[0].now < b.expiresAt;
          assert b.subscriberId !in next.rows;
          GoneForGood(next, steps[1..], b.subscriberId);
        }
      }
    }
  }

  lemma StepUses(s: State, step: Step)
    requires Inv(s) && Enabled(s, step)
    ensures s.usedIds <= Next(s, step).usedIds
  {
    StepSummary(s, step);
  }

  /** An unbound state stays unbound until somebody binds it. */
  lemma {:induction false} StaysUnbound(s: State, steps: seq<Step>, st: string)
    requires Inv(s) && Runs(s, steps) && NoRebind(steps, st) && st !in s.bindings
    ensures st !in After(s, steps).bindings
    decreases |steps|
  {
    hide Next, InvAt;
    if steps != [] {
      StepKeepsBinding(s, steps[0], st);
      StepKeeps(s, steps[0]);
      StaysUnbound(Next(s, steps[0]), steps[1..], st);
    }
  }

  /** The row's environment was parked at `t`: its socket left and its lease started over. */
  ghost predicate ParkedAt(s: State, id: string, t: int) {
    && id in s.rows && s.rows[id].environmentId.Some?
    && s.rows[id].lastHeartbeatAt == t
    && !HasCurrent(s.sockets, s.ignored, id)
  }

  /** When the current socket of an environment tunnel goes, its row is parked at that moment. */
  lemma DetachParks(s: State, step: Step)
    requires Inv(s) && Enabled(s, step) && step.SocketGone? && step.socket !in s.ignored
    requires s.rows[s.sockets[step.socket].tag].environmentId.Some?
    ensures ParkedAt(Next(s, step), s.sockets[step.socket].tag, step.now)
  {
    hide NextHeartbeat, NextBind, NextDeregister, NextPrune, Summary;
    StepSummary(s, step);
    DetachedSockets(s, step.now, step.socket, step.stale);
    var id := s.sockets[step.socket].tag;
    UnpluggedSees(s.sockets, s.ignored, s.rows, step.socket, id);
  }

  lemma DetachedSockets(s: State, now: int, socket: nat, stale: bool)
    requires socket in s.sockets && (socket !in s.ignored ==> s.sockets[socket].tag in s.rows)
    ensures var n := NextSocketGone(s, now, socket, stale);
      n.sockets == s.sockets - {socket} && n.ignored == s.ignored
  {
    DetachCases(s, now, socket, stale);
  }

  /**
   Reconnect continuity. From the moment an environment tunnel parks until its grace period ends,
   any run that does not deregister it keeps its id, birth, environment and forward token, and every
   binding of its that has not expired and was not rebound.
   */
  lemma ReconnectContinuity(s: State, steps: seq<Step>, id: string, parkedAt: int)
    requires Reachable(s) && ParkedAt(s, id, parkedAt) && Runs(s, steps)
    requires Before(steps, parkedAt + SUBSCRIBER_TTL_MS) && NoDeregister(steps, id)
    ensures var t := After(s, steps);
      && Retains(s.rows, t.rows, id)
      && forall st :: st in s.bindings && s.bindings[st].subscriberId == id && NoRebind(steps, st)
                      && Before(steps, s.bindings[st].expiresAt)
           ==> st in t.bindings && t.bindings[st] == s.bindings[st]
  {
    ReachableInv(s);
    RowSurvives(s, steps, id, parkedAt + SUBSCRIBER_TTL_MS);
    forall st | st in s.bindings && s.bindings[st].subscriberId == id && NoRebind(steps, st)
                && Before(steps, s.bindings[st].expiresAt)
      ensures var t := After(s, steps); st in t.bindings && t.bindings[st] == s.bindings[st]
    {
      BindingSurvives(s, steps, st, s.bindings[st]);
    }
  }

  /** A reclaim inside the grace period hands back the same id and forward token. */
  lemma ReclaimReturnsTheRow(s: State, step: Step, id: string)
    requires Inv(s) && Enabled(s, step) && id in s.rows && s.rows[id].environmentId.Some?
    requires step.now < s.rows[id].expiresAt
    requires IsJoin(step) && JoinOf(step).environmentId == s.rows[id].environmentId && Joined(s, step).Some?
    ensures Joined(s, step) == Some(id)
    ensures Retains(s.rows, Next(s, step).rows, id)
  {
    hide Next, Enabled, Retains, JoinedRow, Welcomed, IsRejected, HasCurrent, HasOpen, Listed, Answer, TimeOut;
    StepRetains(s, step, id);
    StepSummary(s, step);
    var w := WelcomedBy(s, step);
    WelcomedTables(s, step.now, step.routeId, step.order);
    assert id in w.rows && w.rows[id].environmentId == s.rows[id].environmentId;
    assert HasEnvironment(w.rows, JoinOf(step).environmentId);
    var owner := EnvironmentOwner(w.rows, JoinOf(step).environmentId);
    assert owner in s.rows && s.rows[owner].environmentId == s.rows[id].environmentId;
  }

  // ---- the latest successful connect -----------------------------------------------

  /** The last step of the run that connected this subscriber. */
  ghost function LatestJoin(s: State, steps: seq<Step>, id: string): Option<Step>
    decreases |steps|
  {
    if steps == [] then None
    else
      var later := LatestJoin(Next(s, steps[0]), steps[1..], id);
      if later.Some? then later
      else if Joined(s, steps[0]) == Some(id) then Some(steps[0]) else None
  }

  lemma StepCredentials(s: State, step: Step, id: string)
    requires Inv(s) && Enabled(s, step) && id in Next(s, step).rows
    ensures Joined(s, step) == Some(id) ==> IsJoin(step) && Stores(s, step, id, Next(s, step).rows[id])
    ensures Joined(s, step) != Some(id) ==> id in s.rows && SameIdentity(s.rows[id], Next(s, step).rows[id])
  {
    hide Enabled, Next, Inv, Joined, Stores, JoinSummary;
    InvReferences(s);
    EnabledFacts(s, step);
    StepSummary(s, step);
    NotJoined(s, step);
    if !RefusedBind(step) {
      SummaryCarries(s, step, Next(s, step));
      if Joined(s, step) == Some(id) {
        SummaryOfJoin(s, step, Next(s, step));
        JoinStores(s, step, Next(s, step));
      }
    }
  }

  /**
   A row's transport, target, environment, webhook flag and token hash are those of the latest successful
   connect of its subscriber, and of the row the run started with when there was none: heartbeats,
   deliveries and the rest never touch them.
   */
  lemma {:induction false} CredentialsAreLatest(s: State, steps: seq<Step>, id: string)
    requires Inv(s) && Runs(s, steps) && id in After(s, steps).rows
    ensures var row := After(s, steps).rows[id];
      match LatestJoin(s, steps, id)
      case Some(join) => IsJoin(join) && ConnectedBy(row, join)
      case None => id in s.rows && SameIdentity(s.rows[id], row)
    decreases |steps|
  {
    hide Core, InvAt, Inv, Next, Effect;
    if steps != [] {
      var next := Next(s, steps[0]);
      StepKeeps(s, steps[0]);
      CredentialsAreLatest(next, steps[1..], id);
      if LatestJoin(next, steps[1..], id).None? {
        StepCredentials(s, steps[0], id);
      }
    }
  }

  /** From a fresh object, exactly the token issued by the latest successful connect of an existing row verifies. */
  lemma OnlyLatestTokenVerifies(s: State, steps: seq<Step>, id: string, token: string)
    requires Initial(s) && Runs(s, steps)
    ensures var rows := After(s, steps).rows;
      && (id in rows ==>
            && LatestJoin(s, steps, id).Some? && IsJoin(LatestJoin(s, steps, id).value)
            && rows[id].acceptWebhooks == LatestJoin(s, steps, id).value.acceptWebhooks)
      && (Verifies(rows, id, token) <==> id in rows && token == LatestJoin(s, steps, id).value.draw.connectionToken)
  {
    InitialHolds(s);
    if id in After(s, steps).rows {
      CredentialsAreLatest(s, steps, id);
    }
  }

  // ---- replacing a live environment -------------------------------------------------

  /**
   A join naming a live environment succeeds iff it presents the token issued by that environment's
   latest successful connect; otherwise it changes no row, binding, socket or request beyond the purge
   every join starts with.
   */
  lemma LiveEnvironmentIsTheftProof(s0: State, steps: seq<Step>, step: Step, id: string)
    requires Initial(s0) && Runs(s0, steps)
    requires Enabled(After(s0, steps), step) && IsJoin(step) && !Refused(step)
    requires var s := After(s0, steps);
      var w := WelcomedBy(s, step);
      && id in w.rows && JoinOf(step).environmentId.Some?
      && w.rows[id].environmentId == JoinOf(step).environmentId && IsLive(w, id)
    ensures LatestJoin(s0, steps, id).Some? && IsJoin(LatestJoin(s0, steps, id).value)
    ensures Joined(After(s0, steps), step) ==
      if JoinOf(step).presented == LatestJoin(s0, steps, id).value.draw.connectionToken then Some(id) else None
  {
    hide Next, Effect, StaleClosed, RemovalEvents, Runs, After, SocketsOk, SocketTags, AnonymousHaveSocket;
    var s := After(s0, steps);
    InitialHolds(s0);
    RunKeeps(s0, steps);
    var w := WelcomedBy(s, step);
    WelcomedKeeps(s, step.now, step.routeId, step.order);
    assert w.rows == KeptRows(s, step.now);
    assert id in s.rows && w.rows[id].tokenHash == s.rows[id].tokenHash;
    OnlyLatestTokenVerifies(s0, steps, id, JoinOf(step).presented);
    assert HasEnvironment(w.rows, JoinOf(step).environmentId);
    assert EnvironmentOwner(w.rows, JoinOf(step).environmentId) == id;
    RejectionIsTokenMismatch(s, step, id);
  }

  lemma RejectionIsTokenMismatch(s: State, step: Step, id: string)
    requires IsJoin(step) && !Refused(step)
    requires var w := WelcomedBy(s, step);
      && HasEnvironment(w.rows, JoinOf(step).environmentId)
      && EnvironmentOwner(w.rows, JoinOf(step).environmentId) == id && IsLive(w, id)
    ensures Joined(s, step) ==
      if TokenMatches(JoinOf(step).presented, WelcomedBy(s, step).rows[id].tokenHash) then Some(id) else None
  {
  }

  /** A rejected join leaves everything but the audit log and the stored route id as its purge left it. */
  lemma RejectedJoinChangesNothing(s: State, step: Step)
    requires IsJoin(step) && !Refused(step) && Joined(s, step).None?
    ensures var t := Next(s, step);
      var p := Purge(s, step.now, step.order);
      && t == p.(routeId := Some(step.routeId), clock := step.now, queued := [], flushed := t.flushed)
      && |t.flushed| == |History(p)| + 1 && History(p) <= t.flushed
      && t.flushed[|History(p)|].action == Rejected
  {
    var w := WelcomedBy(s, step);
    assert IsRejected(w, JoinOf(step));
    var r := RejectJoin(w, JoinOf(step));
    assert r.flushed + r.queued == History(w) + [r.queued[|w.queued|]];
  }
}
