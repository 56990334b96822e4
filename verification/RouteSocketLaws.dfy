/**
 What a step does to every socket, told on the tables alone: which are listed, which are OPEN, and which
 ends are logged already; and that a tunnel which is heard from stays open over whole runs.
 */
module RouteSocketLaws {
  import opened Wrappers
  import opened RouteState
  import opened RouteSteps
  import opened RouteInvariant
  import opened RouteKeeps
  import opened RouteCarry
  import opened RouteReachable
  import opened RouteRuns
  import opened RouteRowLaws

  /** Neither a heartbeat recorded in the row nor a ping on the socket since `since`. */
  ghost predicate UnheardSince(rows: map<string, Row>, socket: Socket, since: int) {
    && socket.tag in rows && rows[socket.tag].lastHeartbeatAt < since
    && (socket.lastPing.None? || socket.lastPing.value < since)
  }

  /**
   An OPEN socket unheard for 90 seconds, but not for so long that its lease has run out: the purge renews
   an expired lease first.
   */
  ghost predicate FallsSilent(s: State, w: nat, now: int)
    requires w in s.sockets
  {
    && s.sockets[w].open
    && UnheardSince(s.rows, s.sockets[w], now - 90_000)
    && now < s.rows[s.sockets[w].tag].expiresAt
  }

  /** The step joins the subscriber again or deregisters it. */
  ghost predicate Dismisses(s: State, step: Step, id: string) {
    Joined(s, step) == Some(id) || (step.Deregister? && step.subscriberId == id)
  }

  /** Silent at a purge, closed by its peer, or its subscriber replaced or deregistered. */
  ghost predicate Closes(s: State, step: Step, w: nat)
    requires w in s.sockets
  {
    || (Purges(step) && FallsSilent(s, w, step.now))
    || (step.PeerClosing? && step.socket == w)
    || Dismisses(s, step, s.sockets[w].tag)
  }

  /** What becomes of the socket. */
  ghost predicate SocketLaw(s: State, step: Step, t: State, w: nat) {
    var opens := step.Fetch? && step.socket == w && Joined(s, step).Some?;
    && (w in t.sockets <==> opens || (w in s.sockets && !(step.SocketGone? && step.socket == w)))
    && (opens ==> t.sockets[w] == Socket(Joined(s, step).value, true, None))
    && (w in t.sockets && !opens ==>
          && t.sockets[w].tag == s.sockets[w].tag
          && (t.sockets[w].open <==> s.sockets[w].open && !Closes(s, step, w))
          && t.sockets[w].lastPing == if step.AutoPong? && step.socket == w then Some(step.now)
                                      else s.sockets[w].lastPing)
    && (w in t.ignored <==> w in s.ignored || (w in s.sockets && Dismisses(s, step, s.sockets[w].tag)))
  }

  // ---- purging -------------------------------------------------------------------------

  /**
   A purge closes exactly the OPEN sockets of surviving tunnels that the row it keeps shows unheard for 90
   seconds, and leaves every other socket as it was.
   */
  lemma PurgeClosesIff(s: State, now: int, order: seq<string>, w: nat)
    requires InvAt(s, now) && w in s.sockets
    ensures var p := Purge(s, now, order);
      && w in p.sockets
      && (s.sockets[w].open ==>
            && s.sockets[w].tag in p.rows
            && (p.sockets[w].open <==> !UnheardSince(p.rows, s.sockets[w], now - 90_000)))
      && (p.sockets[w].open == s.sockets[w].open ==> p.sockets[w] == s.sockets[w])
      && p.sockets[w] == s.sockets[w].(open := p.sockets[w].open)
      && (!s.sockets[w].open ==> !p.sockets[w].open)
  {
    if s.sockets[w].open {
      PurgedSocketRow(s, now, w);
    }
  }

  lemma PurgedSocketRow(s: State, now: int, w: nat)
    requires InvAt(s, now) && w in s.sockets && s.sockets[w].open
    ensures var id := s.sockets[w].tag;
      && id in s.rows && s.rows[id].transport == Tunnel && id in KeptRows(s, now)
      && KeptRows(s, now)[id].transport == Tunnel && RowOk(KeptRows(s, now)[id], now)
  {
    PurgedRow(s, now, s.sockets[w].tag);
  }

  /** The same, told on the state before the purge. */
  lemma PurgedSocket(s: State, now: int, w: nat)
    requires InvAt(s, now) && w in s.sockets
    ensures StaleClosed(s.sockets, KeptRows(s, now), now)[w]
         == s.sockets[w].(open := s.sockets[w].open && !FallsSilent(s, w, now))
  {
    if s.sockets[w].open {
      PurgedSocketRow(s, now, w);
      PurgedRow(s, now, s.sockets[w].tag);
    }
  }

  // ---- the law of sockets -----------------------------------------------------------------

  lemma SocketFrame(s: State, id: string, requestId: string, tooLarge: bool, broken: set<string>, now: int)
    ensures var d := Deliver(s, id, requestId, tooLarge, broken, now);
      d.sockets == s.sockets && d.ignored == s.ignored
  {
  }

  lemma {:induction false} FanOutFrame(s: State, ids: seq<string>, requestId: string, tooLarge: bool,
                                       broken: set<string>, now: int)
    ensures var d := DeliverAll(s, ids, requestId, tooLarge, broken, now);
      d.sockets == s.sockets && d.ignored == s.ignored
    decreases |ids|
  {
    if ids != [] {
      FanOutFrame(s, ids[..|ids| - 1], requestId, tooLarge, broken, now);
    }
  }

  lemma PurgeSocketTable(s: State, now: int, order: seq<string>)
    ensures var p := Purge(s, now, order);
      p.sockets == StaleClosed(s.sockets, KeptRows(s, now), now) && p.ignored == s.ignored
  {
  }

  /** An accepted join closes the sockets that its subscriber has. */
  lemma AttachedSockets(s: State, j: Join, draw: Draw, now: int)
    requires forall w :: w in s.sockets ==> s.sockets[w].tag != draw.subscriberId
    ensures var a := Attach(s, j, draw, now);
      var id := JoinedId(s, j, draw);
      a.sockets == ClosedFor(s.sockets, id) && a.ignored == s.ignored + TagSet(s.sockets, id)
  {
    hide Failed;
  }

  /** The sockets of a join: purged, closed for its subscriber, and the new one of an upgrade. */
  lemma JoinSocketTable(s: State, step: Step)
    requires IsJoin(step) && !Refused(step)
    ensures var v := WelcomedBy(s, step);
      var a := if Joined(s, step).Some? then Attach(v, JoinOf(step), step.draw, step.now) else v;
      && Next(s, step).ignored == a.ignored
      && Next(s, step).sockets ==
           (if step.Fetch? && Joined(s, step).Some? then
              a.sockets[step.socket := Socket(Joined(s, step).value, true, None)]
            else a.sockets)
      && (Joined(s, step).Some? ==> Joined(s, step).value == JoinedId(v, JoinOf(step), step.draw))
  {
    hide Welcomed, Attach, IsRejected, JoinedId, CleanupAt;
  }

  lemma JoinSocketLaw(s: State, step: Step, w: nat)
    requires InvAt(s, step.now) && IsJoin(step) && !Refused(step) && FreshDraw(s, step.draw)
    requires step.Fetch? ==> step.socket !in s.sockets
    ensures SocketLaw(s, step, Next(s, step), w)
  {
    hide InvAt, FreshDraw, Refused, SocketLaw, Next;
    var v, draw := WelcomedBy(s, step), step.draw;
    hide *;
    TagsAreUsed(s, step.now);
    DrawnTagsNoSocket(s, draw);
    PurgeSocketTable(s, step.now, step.order);
    WelcomedIsPurged(s, step);
    JoinSocketTable(s, step);
    StaleKeys(s.sockets, KeptRows(s, step.now), step.now);
    StaleTags(s.sockets, KeptRows(s, step.now), step.now);
    assert forall u :: u in v.sockets ==> v.sockets[u].tag != draw.subscriberId;
    AttachedSockets(v, JoinOf(step), draw, step.now);
    if w in s.sockets {
      PurgedSocket(s, step.now, w);
    }
    JoinedSocket(s, step, Next(s, step), v.sockets, w);
  }

  lemma TagsAreUsed(s: State, now: int)
    requires InvAt(s, now)
    ensures SocketTags(s.sockets, s.usedIds)
  {
  }

  lemma JoinedSocket(s: State, step: Step, t: State, purged: map<nat, Socket>, w: nat)
    requires IsJoin(step) && !Refused(step) && purged.Keys == s.sockets.Keys
    requires step.Fetch? ==> step.socket !in s.sockets
    requires w in s.sockets ==>
      purged[w] == s.sockets[w].(open := s.sockets[w].open && !FallsSilent(s, w, step.now))
    requires forall u :: u in s.sockets ==> purged[u].tag == s.sockets[u].tag
    requires var j := Joined(s, step);
      var left := if j.Some? then ClosedFor(purged, j.value) else purged;
      && t.sockets == (if step.Fetch? && j.Some? then left[step.socket := Socket(j.value, true, None)] else left)
      && t.ignored == s.ignored + if j.Some? then TagSet(purged, j.value) else {}
    ensures SocketLaw(s, step, t, w)
  {
    hide FallsSilent, Joined;
  }

  lemma StaleTags(sockets: map<nat, Socket>, rows: map<string, Row>, now: int)
    ensures forall w :: w in sockets ==> StaleClosed(sockets, rows, now)[w].tag == sockets[w].tag
  {
  }

  lemma WelcomedIsPurged(s: State, step: Step)
    requires IsJoin(step)
    ensures var v, p := WelcomedBy(s, step), Purge(s, step.now, step.order);
      v.sockets == p.sockets && v.ignored == p.ignored
  {
    hide Purge;
  }

  lemma StaleKeys(sockets: map<nat, Socket>, rows: map<string, Row>, now: int)
    ensures StaleClosed(sockets, rows, now).Keys == sockets.Keys
  {
  }

  lemma EnabledJoin(s: State, step: Step)
    requires Enabled(s, step) && IsJoin(step)
    ensures FreshDraw(s, step.draw) && (step.Fetch? ==> step.socket !in s.sockets)
  {
    hide OrderFits, FreshDraw, Purge;
  }

  /** A drawn id is nobody's tag. */
  lemma DrawnTagsNoSocket(s: State, draw: Draw)
    requires SocketTags(s.sockets, s.usedIds) && FreshDraw(s, draw)
    ensures forall w :: w in s.sockets ==> s.sockets[w].tag != draw.subscriberId
  {
  }

  lemma RefusedSocketLaw(s: State, step: Step, w: nat)
    requires IsJoin(step) && Refused(step)
    ensures SocketLaw(s, step, Next(s, step), w)
  {
    assert Joined(s, step).None?;
  }

  lemma DroppedSocketTable(s: State, id: string)
    ensures Dropped(s, id).sockets == ClosedFor(s.sockets, id)
    ensures Dropped(s, id).ignored == s.ignored + TagSet(s.sockets, id)
  {
  }

  lemma DroppedSilence(s: State, id: string, now: int, w: nat)
    requires w in s.sockets && s.sockets[w].tag != id
    ensures w in Dropped(s, id).sockets && (FallsSilent(Dropped(s, id), w, now) <==> FallsSilent(s, w, now))
  {
    DroppedTables(s, id);
  }

  lemma DeregisterSocketTable(s: State, step: Step)
    requires step.Deregister?
    ensures var p := Purge(Dropped(s, step.subscriberId), step.now, step.order);
      Next(s, step).sockets == p.sockets && Next(s, step).ignored == p.ignored
  {
    hide Purge, Dropped, CleanupAt;
  }

  lemma DeregisterSocketLaw(s: State, step: Step, w: nat)
    requires InvAt(s, step.now) && step.Deregister?
    ensures SocketLaw(s, step, Next(s, step), w)
  {
    var id := step.subscriberId;
    var d := Dropped(s, id);
    hide *;
    DroppedKeeps(s, id, step.now);
    DeregisterSocketTable(s, step);
    PurgeSocketTable(d, step.now, step.order);
    StaleKeys(d.sockets, KeptRows(d, step.now), step.now);
    DroppedSocketTable(s, id);
    if w in s.sockets {
      PurgedSocket(d, step.now, w);
      if s.sockets[w].tag != id {
        DroppedSilence(s, id, step.now, w);
      }
    }
    DeregisteredSocket(s, step, Next(s, step), d, w);
  }

  lemma DeregisteredSocket(s: State, step: Step, t: State, d: State, w: nat)
    requires step.Deregister? && d.sockets == ClosedFor(s.sockets, step.subscriberId)
    requires t.ignored == s.ignored + TagSet(s.sockets, step.subscriberId)
    requires t.sockets.Keys == d.sockets.Keys
    requires w in s.sockets ==>
      && (w in d.sockets ==> t.sockets[w] == d.sockets[w].(open := d.sockets[w].open && !FallsSilent(d, w, step.now)))
      && (s.sockets[w].tag != step.subscriberId ==>
            w in d.sockets && (FallsSilent(d, w, step.now) <==> FallsSilent(s, w, step.now)))
    ensures SocketLaw(s, step, t, w)
  {
    hide FallsSilent;
  }

  lemma PurgeSocketLaw(s: State, step: Step, t: State, w: nat)
    requires InvAt(s, step.now) && Purges(step) && !IsJoin(step) && !step.Deregister?
    requires t.sockets == StaleClosed(s.sockets, KeptRows(s, step.now), step.now) && t.ignored == s.ignored
    ensures SocketLaw(s, step, t, w)
  {
    hide InvAt, KeptRows, StaleClosed, FallsSilent;
    StaleKeys(s.sockets, KeptRows(s, step.now), step.now);
    if w in s.sockets {
      PurgedSocket(s, step.now, w);
    }
  }

  lemma PurgedSocketTable(s: State, step: Step)
    requires Purges(step) && !IsJoin(step) && !step.Deregister?
    ensures Next(s, step).sockets == StaleClosed(s.sockets, KeptRows(s, step.now), step.now)
    ensures Next(s, step).ignored == s.ignored
  {
    hide KeptRows, StaleClosed, Purge, CleanupAt, DeliverAll, Deliver, OAuthTarget, Active;
    var p := Purge(s, step.now, step.order);
    PurgeSocketTable(s, step.now, step.order);
    if step.FanOut? {
      FanOutFrame(p, step.targets, step.requestId, step.tooLarge, step.broken, step.now);
    } else if step.ProxyOAuth? {
      var target := OAuthTarget(p, step.oauthState, step.signed, step.now);
      if target.Some? {
        SocketFrame(p, target.value, step.requestId, step.tooLarge, step.broken, step.now);
      }
    } else if step.AlarmFires? {
      AlarmIsNotRead(s, step.now);
      PurgeSocketTable(s.(alarm := None), step.now, step.order);
    }
  }

  lemma AlarmIsNotRead(s: State, now: int)
    ensures KeptRows(s.(alarm := None), now) == KeptRows(s, now)
  {
  }

  lemma EventSocketLaw(s: State, step: Step, w: nat)
    requires !Purges(step) && !IsJoin(step) && !step.SocketGone?
    ensures SocketLaw(s, step, Next(s, step), w)
  {
    hide Answer, TimeOut, Joined, FallsSilent, Extend, NextFetch, NextRegister, NextHeartbeat, NextDeregister,
         NextPrune, NextProxy, NextSocketGone, NextAlarm, Purge, DeliverAll;
    NotJoined(s, step);
    ExtendKeepsSockets(s);
  }

  lemma ExtendKeepsSockets(s: State)
    ensures forall id, now :: Extend(s, id, now).sockets == s.sockets && Extend(s, id, now).ignored == s.ignored
  {
  }

  lemma SocketGoneSocketLaw(s: State, step: Step, w: nat)
    requires Inv(s) && Enabled(s, step) && step.SocketGone?
    ensures SocketLaw(s, step, Next(s, step), w)
  {
    hide Inv, Enabled, NextSocketGone, Joined, FallsSilent;
    EnabledFacts(s, step);
    SocketHasRow(s, step);
    NotJoined(s, step);
    DetachedSockets(s, step.now, step.socket, step.stale);
  }

  /**
   After any step: a socket is listed until its own end and from the upgrade that connected its subscriber;
   it is OPEN until its peer closes it, its subscriber is replaced or deregistered, or a purge finds it
   silent; and its end is logged already exactly when its subscriber was replaced or deregistered.
   */
  lemma SocketAfter(s: State, step: Step, w: nat)
    requires Inv(s) && Enabled(s, step)
    ensures SocketLaw(s, step, Next(s, step), w)
  {
    hide SocketLaw, Next, Enabled, InvAt;
    EnabledFacts(s, step);
    ClockAdvances(s, step.now);
    if IsJoin(step) {
      if Refused(step) {
        RefusedSocketLaw(s, step, w);
      } else {
        EnabledJoin(s, step);
        JoinSocketLaw(s, step, w);
      }
    } else if step.Deregister? {
      DeregisterSocketLaw(s, step, w);
    } else if step.SocketGone? {
      SocketGoneSocketLaw(s, step, w);
    } else if Purges(step) {
      PurgedSocketTable(s, step);
      PurgeSocketLaw(s, step, Next(s, step), w);
    } else {
      EventSocketLaw(s, step, w);
    }
  }

  // ---- a tunnel that is heard from ---------------------------------------------------------

  /** The socket is OPEN, and its row or its pings show that it was heard from since `since`. */
  ghost predicate HeardSince(s: State, w: nat, since: int) {
    && w in s.sockets && s.sockets[w].open && s.sockets[w].tag in s.rows
    && !UnheardSince(s.rows, s.sockets[w], since)
  }

  /** The step opens the socket, or brings a heartbeat or a ping over it. */
  ghost predicate Hears(s: State, step: Step, w: nat) {
    || (step.Fetch? && step.socket == w && Joined(s, step).Some?)
    || (step.Message? && step.message == Beat && step.socket == w && w in s.sockets && s.sockets[w].open)
    || (step.AutoPong? && step.socket == w && w in s.sockets && s.sockets[w].open)
  }

  /** The peer does not close the socket, and its subscriber neither joins again nor is deregistered. */
  ghost predicate LeftAlone(s: State, steps: seq<Step>, w: nat)
    decreases |steps|
  {
    steps == [] ||
    (&& !((steps[0].SocketGone? || steps[0].PeerClosing?) && steps[0].socket == w)
     && (w in s.sockets ==> !Dismisses(s, steps[0], s.sockets[w].tag))
     && LeftAlone(Next(s, steps[0]), steps[1..], w))
  }

  lemma OpenIsCurrent(s: State, w: nat, v: nat)
    requires Inv(s) && w in s.sockets && s.sockets[w].open && v in s.sockets && v !in s.ignored
    ensures w !in s.ignored && s.sockets[w].tag in s.rows
    ensures s.rows[s.sockets[w].tag].lastHeartbeatAt <= s.clock
    ensures s.sockets[v].tag == s.sockets[w].tag ==> v == w
  {
  }

  lemma OpenHasRow(s: State, w: nat)
    requires Inv(s) && w in s.sockets && s.sockets[w].open
    ensures w !in s.ignored && s.sockets[w].tag in s.rows
    ensures s.rows[s.sockets[w].tag].transport == Tunnel && s.rows[s.sockets[w].tag].lastHeartbeatAt <= s.clock
  {
  }

  lemma StepKeepsHeard(s: State, step: Step, w: nat, since: int)
    requires Inv(s) && Enabled(s, step) && HeardSince(s, w, since)
    requires since <= s.clock && step.now <= since + 90_000
    requires !((step.SocketGone? || step.PeerClosing?) && step.socket == w)
    requires !Dismisses(s, step, s.sockets[w].tag)
    ensures HeardSince(Next(s, step), w, since)
  {
    var id := s.sockets[w].tag;
    hide Inv, Enabled, Next, Joined, SocketLaw, RowLaw, LosesRow, Dismisses, UnheardSince;
    SocketAfter(s, step, w);
    RowAfter(s, step, id);
    EnabledFacts(s, step);
    OpenHasRow(s, w);
    if step.SocketGone? && step.socket in s.sockets && step.socket !in s.ignored {
      OpenIsCurrent(s, w, step.socket);
    }
    HeardKeepsRow(s, step, w);
    if IsJoin(step) {
      EnabledJoin(s, step);
    }
    HeardAfter(s, step, Next(s, step), w, since);
  }

  lemma HeardKeepsRow(s: State, step: Step, w: nat)
    requires w in s.sockets && s.sockets[w].tag in s.rows && s.rows[s.sockets[w].tag].transport == Tunnel
    requires !Dismisses(s, step, s.sockets[w].tag)
    requires step.SocketGone? && step.socket in s.sockets && step.socket !in s.ignored ==>
      s.sockets[step.socket].tag != s.sockets[w].tag
    ensures !LosesRow(s, step, s.sockets[w].tag)
  {
    hide Purges, Joined;
    assert !Socketless(s, s.sockets[w].tag);
  }

  lemma HeardAfter(s: State, step: Step, t: State, w: nat, since: int)
    requires HeardSince(s, w, since) && since <= s.clock <= step.now <= since + 90_000
    requires SocketLaw(s, step, t, w) && RowLaw(s, step, t, s.sockets[w].tag)
    requires !((step.SocketGone? || step.PeerClosing?) && step.socket == w)
    requires !Dismisses(s, step, s.sockets[w].tag) && !LosesRow(s, step, s.sockets[w].tag)
    requires step.Fetch? ==> step.socket != w
    ensures HeardSince(t, w, since)
  {
    hide Joined, LosesRow, Renews, Stores, Purges;
  }

  lemma HearingIsRecorded(s: State, step: Step, w: nat)
    requires Inv(s) && Enabled(s, step) && Hears(s, step, w)
    ensures HeardSince(Next(s, step), w, step.now)
  {
    hide Inv, Enabled, Next, Joined, LosesRow;
    SocketAfter(s, step, w);
    NotJoined(s, step);
    if step.Fetch? {
      RowAfter(s, step, Joined(s, step).value);
    } else {
      OpenHasRow(s, w);
      RowAfter(s, step, s.sockets[w].tag);
      TalkingLosesNoRow(s, step, s.sockets[w].tag);
    }
  }

  lemma TalkingLosesNoRow(s: State, step: Step, id: string)
    requires (step.Message? || step.AutoPong?) && id in s.rows
    ensures !LosesRow(s, step, id)
  {
  }

  /**
   A tunnel that is heard from stays open: for 90 seconds from its upgrade, a heartbeat or a ping, no run
   closes the socket, whatever is purged, unless the peer closes it or its subscriber is replaced or
   deregistered.
   */
  lemma {:induction false} HeardStaysOpen(s: State, steps: seq<Step>, w: nat, since: int)
    requires Inv(s) && Runs(s, steps) && HeardSince(s, w, since) && since <= s.clock
    requires LeftAlone(s, steps, w) && Before(steps, since + 90_001)
    ensures HeardSince(After(s, steps), w, since)
    decreases |steps|
  {
    hide Inv, Enabled, Next, HeardSince, Dismisses;
    if steps != [] {
      SocketOfHeard(s, w, since);
      StepKeepsHeard(s, steps[0], w, since);
      StepKeeps(s, steps[0]);
      ClockIsNow(s, steps[0]);
      HeardStaysOpen(Next(s, steps[0]), steps[1..], w, since);
    }
  }

  lemma ClockIsNow(s: State, step: Step)
    requires Enabled(s, step)
    ensures s.clock <= step.now == Next(s, step).clock
  {
  }

  lemma SocketOfHeard(s: State, w: nat, since: int)
    requires HeardSince(s, w, since)
    ensures w in s.sockets
  {
  }

  lemma HeardFromStaysOpen(s: State, step: Step, steps: seq<Step>, w: nat)
    requires Reachable(s) && Enabled(s, step) && Hears(s, step, w)
    requires Runs(Next(s, step), steps) && LeftAlone(Next(s, step), steps, w) && Before(steps, step.now + 90_001)
    ensures var t := After(Next(s, step), steps);
      w in t.sockets && t.sockets[w].open
  {
    hide Inv, Enabled, Next, Hears, LeftAlone, Before, UnheardSince;
    ReachableInv(s);
    StepKeeps(s, step);
    HearingIsRecorded(s, step, w);
    ClockIsNow(s, step);
    HeardStaysOpen(Next(s, step), steps, w, step.now);
  }

  /**
   A purge forgives a long silence: a socket unheard from for five minutes, with no purge in between, is
   not closed, because the row's expired lease is renewed before its age is judged.
   */
  lemma LongSilenceIsForgiven(s: State, step: Step, w: nat)
    requires Inv(s) && Enabled(s, step) && Purges(step) && !IsJoin(step) && !step.Deregister?
    requires w in s.sockets && s.sockets[w].open
    requires UnheardSince(s.rows, s.sockets[w], step.now - 299_999)
    ensures var t := Next(s, step);
      && HeardSince(t, w, step.now)
  {
    var id := s.sockets[w].tag;
    OpenHasRow(s, w);
    LeaseOf(s, id);
    ExpiredTunnelIsRenewed(s, step, id);
    NotJoined(s, step);
    hide *;
    EnabledFacts(s, step);
    SocketAfter(s, step, w);
    RowAfter(s, step, id);
    ForgivenAfter(s, step, Next(s, step), w);
  }

  lemma LeaseOf(s: State, id: string)
    requires Inv(s) && id in s.rows
    ensures s.rows[id].expiresAt == s.rows[id].lastHeartbeatAt + 300_000
  {
  }

  lemma ForgivenAfter(s: State, step: Step, t: State, w: nat)
    requires Purges(step) && !IsJoin(step) && !step.Deregister? && Joined(s, step).None?
    requires w in s.sockets && s.sockets[w].open && s.sockets[w].tag in s.rows
    requires var id := s.sockets[w].tag;
      && s.rows[id].transport == Tunnel && s.rows[id].expiresAt <= step.now && Renews(s, step, id)
      && RowLaw(s, step, t, id)
    requires SocketLaw(s, step, t, w)
    ensures HeardSince(t, w, step.now)
  {
    hide Joined, Renews, Stores;
    assert !Socketless(s, s.sockets[w].tag);
  }

  lemma ExpiredTunnelIsRenewed(s: State, step: Step, id: string)
    requires id in s.rows && Purges(step) && s.rows[id].transport == Tunnel && s.rows[id].expiresAt <= step.now
    ensures Renews(s, step, id)
  {
  }
}
