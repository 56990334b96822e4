/** A purge in progress: what the three loops of `purgeExpired` have done so far. */
module RouteSweep {
  import opened RouteState
  import opened RouteInvariant

  const GONE := SubscriberGone("tunnel_disconnected")

  ghost function Elements(order: seq<string>): set<string> {
    set id | id in order
  }

  ghost function SweptRows(rows: map<string, Row>, now: int, gone: set<string>,
                           renewed: set<string>): map<string, Row> {
    map id | id in rows && id !in gone :: if id in renewed then Renewed(rows[id], now) else rows[id]
  }

  /** The rows in `order` removed, those in `renewed` extended. */
  ghost function Swept(s: State, now: int, order: seq<string>, renewed: set<string>): State {
    s.(rows := SweptRows(s.rows, now, Elements(order), renewed),
       bindings := BindingsWithout(s.bindings, Elements(order)),
       requests := Failed(s.requests, Elements(order), GONE),
       queued := s.queued + RemovalEvents(s.rows, order, now))
  }

  lemma NothingSwept(s: State, now: int)
    ensures Swept(s, now, [], {}) == s
  {
    assert PromisesOf(s.requests.pending, {}) == {};
    assert s.requests.timers - {} == s.requests.timers;
    assert Failed(s.requests, {}, GONE) == s.requests;
    assert SweptRows(s.rows, now, {}, {}) == s.rows;
    assert BindingsWithout(s.bindings, {}) == s.bindings;
    assert s.queued + RemovalEvents(s.rows, [], now) == s.queued;
    assert Elements([]) == {};
  }

  lemma PromisesLeft(pending: map<string, Pending>, a: set<string>, b: set<string>)
    requires a !! b
    ensures PromisesOf(PendingWithout(pending, a), b) == PromisesOf(pending, b)
    ensures PromisesOf(pending, a + b) == PromisesOf(pending, a) + PromisesOf(pending, b)
    ensures PendingWithout(PendingWithout(pending, a), b) == PendingWithout(pending, a + b)
  {
    var left := PendingWithout(pending, a);
    forall p | p in PromisesOf(pending, b) ensures p in PromisesOf(left, b) {
      var k :| k in pending && pending[k].subscriberId in b && pending[k].promise == p;
      assert k in left && left[k] == pending[k];
    }
    forall p | p in PromisesOf(pending, a) + PromisesOf(pending, b) ensures p in PromisesOf(pending, a + b) {
      var k :| k in pending && pending[k].subscriberId in a + b && pending[k].promise == p;
    }
  }

  lemma SettledTwice(outcomes: map<nat, seq<Outcome>>, a: set<nat>, b: set<nat>)
    requires a !! b
    ensures Settled(Settled(outcomes, a, GONE), b, GONE) == Settled(outcomes, a + b, GONE)
  {
  }

  /** Different subscribers wait on different promises. */
  lemma PromisesDiffer(r: Requests, a: set<string>, b: set<string>)
    requires SettlementOk(r) && a !! b
    ensures PromisesOf(r.pending, a) !! PromisesOf(r.pending, b)
  {
    forall p | p in PromisesOf(r.pending, a) ensures p !in PromisesOf(r.pending, b) {
      var k :| k in r.pending && r.pending[k].subscriberId in a && r.pending[k].promise == p;
      assert r.timers[p].requestId == k;
    }
  }

  /** Failing two groups of subscribers, one after the other. */
  lemma FailedTwice(r: Requests, a: set<string>, b: set<string>)
    requires SettlementOk(r) && a !! b
    ensures Failed(Failed(r, a, GONE), b, GONE) == Failed(r, a + b, GONE)
  {
    PromisesLeft(r.pending, a, b);
    PromisesDiffer(r, a, b);
    var hitA, hitB := PromisesOf(r.pending, a), PromisesOf(r.pending, b);
    assert (r.timers - hitA) - hitB == r.timers - (hitA + hitB);
    SettledTwice(r.outcomes, hitA, hitB);
    hide PromisesOf, PendingWithout, Settled, SettlementOk;
  }

  lemma RemovalEventsSnoc(rows: map<string, Row>, order: seq<string>, id: string, now: int)
    requires id in rows
    ensures RemovalEvents(rows, order + [id], now)
         == RemovalEvents(rows, order, now) + [Gone(rows[id], id, RemovalReason(rows[id], now))]
  {
  }

  /** Failing a subscriber's requests and removing its row, as the tunnel loops do. */
  lemma SweepStep(s: State, now: int, order: seq<string>, renewed: set<string>, id: string)
    requires SettlementOk(s.requests) && id in s.rows && id !in order && id !in renewed
    ensures RemoveRow(FailFor(Swept(s, now, order, renewed), {id}, GONE), id, RemovalReason(s.rows[id], now))
         == Swept(s, now, order + [id], renewed)
  {
    hide Failed, PromisesOf, PendingWithout, Settled, StaleClosed, RemovalEvents;
    var gone := Elements(order);
    assert Elements(order + [id]) == gone + {id};
    FailedTwice(s.requests, gone, {id});
    RemovalEventsSnoc(s.rows, order, id, now);
    assert SweptRows(s.rows, now, gone, renewed) - {id} == SweptRows(s.rows, now, gone + {id}, renewed);
    assert BindingsWithout(BindingsWithout(s.bindings, gone), {id}) == BindingsWithout(s.bindings, gone + {id});
    hide Failed, SweptRows, BindingsWithout, RemovalEvents, Elements, SettlementOk;
  }

  lemma NoRequests(r: Requests, id: string)
    requires forall k :: k in r.pending ==> r.pending[k].subscriberId != id
    ensures Failed(r, {id}, GONE) == r
  {
    assert PromisesOf(r.pending, {id}) == {};
  }

  /** A public row has no requests to fail. */
  lemma SweepPublicStep(s: State, now: int, order: seq<string>, renewed: set<string>, id: string)
    requires SettlementOk(s.requests) && PendingOk(s.requests.pending, s.rows)
    requires id in s.rows && s.rows[id].transport == Public && id !in order && id !in renewed
    ensures RemoveRow(Swept(s, now, order, renewed), id, RemovalReason(s.rows[id], now))
         == Swept(s, now, order + [id], renewed)
  {
    SweepStep(s, now, order, renewed, id);
    NoRequests(Swept(s, now, order, renewed).requests, id);
  }

  lemma RenewStep(s: State, now: int, order: seq<string>, renewed: set<string>, id: string)
    requires id in s.rows && id !in order && id !in renewed
    ensures Extend(Swept(s, now, order, renewed), id, now) == Swept(s, now, order, renewed + {id})
  {
    var gone := Elements(order);
    assert SweptRows(s.rows, now, gone, renewed)[id := Renewed(s.rows[id], now)]
         == SweptRows(s.rows, now, gone, renewed + {id});
    hide Failed, SweptRows, BindingsWithout, RemovalEvents;
  }

  ghost function Unexpired(bindings: map<string, Binding>, now: int): map<string, Binding> {
    map st | st in bindings && bindings[st].expiresAt > now :: bindings[st]
  }

  /** Dropping expired bindings after a sweep is sweeping a state without them. */
  lemma UnexpiredCommutes(s: State, now: int, order: seq<string>, renewed: set<string>)
    ensures var swept := Swept(s, now, order, renewed);
      swept.(bindings := Unexpired(swept.bindings, now))
        == Swept(s.(bindings := Unexpired(s.bindings, now)), now, order, renewed)
  {
    assert Unexpired(BindingsWithout(s.bindings, Elements(order)), now)
         == BindingsWithout(Unexpired(s.bindings, now), Elements(order));
    hide Failed, SweptRows, BindingsWithout, RemovalEvents, Unexpired;
  }

  /** The tunnel rows renewed because their socket is still listed. */
  ghost function ListedExpired(s: State, now: int): set<string> {
    set id | id in s.rows && s.rows[id].transport == Tunnel && s.rows[id].expiresAt <= now && Listed(s.sockets, id)
  }

  lemma SweptIsKept(s: State, now: int, order: seq<string>)
    requires Enumerates(order, Removed(s, now))
    ensures SweptRows(s.rows, now, Elements(order), ListedExpired(s, now)) == KeptRows(s, now)
    ensures BindingsOk(s.bindings, s.rows) ==>
      BindingsWithout(Unexpired(s.bindings, now), Elements(order)) == KeptBindings(s, now)
    ensures Elements(order) == Removed(s, now)
  {
    assert Elements(order) == Removed(s, now);
  }

  /** The loops together are one filter. */
  lemma SweepIsPurge(s: State, now: int, order: seq<string>)
    requires BindingsOk(s.bindings, s.rows) && Enumerates(order, Removed(s, now))
    ensures var swept := Swept(s.(bindings := Unexpired(s.bindings, now)), now, order, ListedExpired(s, now));
      swept.(sockets := StaleClosed(swept.sockets, swept.rows, now)) == Purge(s, now, order)
  {
    SweptIsKept(s, now, order);
    hide Failed, SweptRows, BindingsWithout, RemovalEvents, Unexpired, KeptRows, KeptBindings, Removed, StaleClosed,
         ListedExpired, Elements;
  }

  // ---- the loop of `failPendingForSubscriber` ----------------------------------------

  /** The keys of `pending` visited so far that belong to the subscriber. */
  ghost function HitKeys(pending: map<string, Pending>, visited: set<string>, id: string): set<string> {
    set k | k in pending && k in visited && pending[k].subscriberId == id
  }

  ghost function PromisesAt(pending: map<string, Pending>, keys: set<string>): set<nat> {
    set k | k in keys && k in pending :: pending[k].promise
  }

  ghost function PartlyFailed(r: Requests, visited: set<string>, id: string, o: Outcome): Requests {
    var keys := HitKeys(r.pending, visited, id);
    Requests(r.pending - keys, r.timers - PromisesAt(r.pending, keys),
             Settled(r.outcomes, PromisesAt(r.pending, keys), o), r.nextPromise)
  }

  lemma NothingVisited(r: Requests, id: string, o: Outcome)
    ensures PartlyFailed(r, {}, id, o) == r
  {
    assert HitKeys(r.pending, {}, id) == {};
    assert r.pending - {} == r.pending;
    assert PromisesAt(r.pending, {}) == {};
    assert r.timers - {} == r.timers;
  }

  lemma VisitHits(r: Requests, keys: set<string>, k: string, o: Outcome)
    requires SettlementOk(r) && k in r.pending && k !in keys && keys <= r.pending.Keys
    ensures var hit, p := PromisesAt(r.pending, keys), r.pending[k].promise;
      && PromisesAt(r.pending, keys + {k}) == hit + {p}
      && (r.timers - hit) - {p} == r.timers - (hit + {p})
      && Settled(Settled(r.outcomes, hit, o), {p}, o) == Settled(r.outcomes, hit + {p}, o)
      && (r.pending - keys) - {k} == r.pending - (keys + {k})
  {
    var hit, p := PromisesAt(r.pending, keys), r.pending[k].promise;
    assert forall j :: j in keys ==> r.timers[r.pending[j].promise].requestId == j;
    assert p !in hit;
  }

  /** Visiting one more entry: settle it if it is the subscriber's. */
  lemma VisitStep(r: Requests, visited: set<string>, k: string, id: string, o: Outcome)
    requires SettlementOk(r) && k in r.pending && k !in visited
    ensures var f := PartlyFailed(r, visited, id, o);
      && k in f.pending && f.pending[k] == r.pending[k]
      && PartlyFailed(r, visited + {k}, id, o) == if r.pending[k].subscriberId == id then Answer(f, k, o) else f
  {
    var keys := HitKeys(r.pending, visited, id);
    if r.pending[k].subscriberId == id {
      assert HitKeys(r.pending, visited + {k}, id) == keys + {k};
      VisitHits(r, keys, k, o);
    } else {
      assert HitKeys(r.pending, visited + {k}, id) == keys;
    }
    hide Settled, PromisesAt, SettlementOk;
  }

  lemma AllVisited(r: Requests, id: string, o: Outcome)
    ensures PartlyFailed(r, r.pending.Keys, id, o) == Failed(r, {id}, o)
  {
    var keys := HitKeys(r.pending, r.pending.Keys, id);
    assert PromisesAt(r.pending, keys) == PromisesOf(r.pending, {id});
    assert r.pending - keys == PendingWithout(r.pending, {id});
  }

  // ---- the three loops of `purgeExpired` ---------------------------------------------

  ghost function ExpiredPublic(s: State, now: int): set<string> {
    set id | id in s.rows && s.rows[id].transport == Public && s.rows[id].expiresAt <= now
  }

  ghost function ExpiredUnlisted(s: State, now: int): set<string> {
    set id | id in s.rows && s.rows[id].transport == Tunnel && s.rows[id].expiresAt <= now && !Listed(s.sockets, id)
  }

  ghost function AnonymousUnlisted(s: State): set<string> {
    set id | id in s.rows && s.rows[id].transport == Tunnel && s.rows[id].environmentId.None? && !Listed(s.sockets, id)
  }

  lemma EventsTwice(rows: map<string, Row>, swept: map<string, Row>, now: int, a: seq<string>, b: seq<string>)
    requires forall id :: id in b ==> id in rows && id in swept && swept[id] == rows[id]
    ensures RemovalEvents(rows, a + b, now) == RemovalEvents(rows, a, now) + RemovalEvents(swept, b, now)
  {
    var all, left, right := RemovalEvents(rows, a + b, now), RemovalEvents(rows, a, now), RemovalEvents(swept, b, now);
    forall i | 0 <= i < |all| ensures all[i] == (left + right)[i] {
      if i >= |a| {
        assert (a + b)[i] == b[i - |a|] && b[i - |a|] in b;
      }
    }
  }

  lemma TablesTwice(s: State, now: int, a: set<string>, renewedA: set<string>, b: set<string>, renewedB: set<string>)
    requires b !! a && b !! renewedA && renewedB !! renewedA
    ensures SweptRows(SweptRows(s.rows, now, a, renewedA), now, b, renewedB)
         == SweptRows(s.rows, now, a + b, renewedA + renewedB)
    ensures BindingsWithout(BindingsWithout(s.bindings, a), b) == BindingsWithout(s.bindings, a + b)
  {
  }

  lemma SweptRowsStay(rows: map<string, Row>, now: int, gone: set<string>, renewed: set<string>, left: set<string>)
    requires left !! gone && left !! renewed && left <= rows.Keys
    ensures forall id :: id in left ==>
      id in SweptRows(rows, now, gone, renewed) && SweptRows(rows, now, gone, renewed)[id] == rows[id]
  {
  }

  /** Two sweeps of different rows are one. */
  lemma SweptTwice(s: State, now: int, a: seq<string>, renewedA: set<string>, b: seq<string>, renewedB: set<string>)
    requires SettlementOk(s.requests)
    requires Elements(b) !! Elements(a) && Elements(b) !! renewedA && Elements(b) <= s.rows.Keys
    requires renewedB !! renewedA
    ensures Swept(Swept(s, now, a, renewedA), now, b, renewedB) == Swept(s, now, a + b, renewedA + renewedB)
  {
    assert Elements(a + b) == Elements(a) + Elements(b);
    FailedTwice(s.requests, Elements(a), Elements(b));
    TablesTwice(s, now, Elements(a), renewedA, Elements(b), renewedB);
    SweptRowsStay(s.rows, now, Elements(a), renewedA, Elements(b));
    assert forall id :: id in b ==> id in Elements(b);
    EventsTwice(s.rows, SweptRows(s.rows, now, Elements(a), renewedA), now, a, b);
    hide Failed, SweptRows, BindingsWithout, RemovalEvents, Elements, SettlementOk;
  }

  lemma EnumeratesSnoc(order: seq<string>, ids: set<string>, id: string)
    requires Enumerates(order, ids) && id !in ids
    ensures Enumerates(order + [id], ids + {id})
    ensures id !in order
  {
  }

  lemma ElementsOf(order: seq<string>, ids: set<string>)
    requires Enumerates(order, ids)
    ensures Elements(order) == ids
  {
  }

  lemma EnumeratesJoined(a: seq<string>, b: seq<string>, left: set<string>, right: set<string>)
    requires Enumerates(a, left) && Enumerates(b, right) && left !! right
    ensures Enumerates(a + b, left + right)
    ensures Elements(a) == left && Elements(b) == right
  {
    assert forall i :: 0 <= i < |b| ==> b[i] in b;
    assert forall i :: 0 <= i < |a| ==> a[i] in a;
  }

  /** After the first two loops. */
  lemma SweptSoFar(s: State, s1: State, s2: State, now: int, o1: seq<string>, o2: seq<string>)
    requires SettlementOk(s.requests)
    requires Enumerates(o1, ExpiredPublic(s, now)) && s1 == Swept(s, now, o1, {})
    requires Enumerates(o2, ExpiredUnlisted(s1, now)) && s2 == Swept(s1, now, o2, ListedExpired(s1, now))
    ensures s2 == Swept(s, now, o1 + o2, ListedExpired(s, now))
    ensures Enumerates(o2, ExpiredUnlisted(s, now))
  {
    ListedAreTunnels(s, now);
    FirstLoopKeepsTunnels(s, now, o1);
    ElementsOf(o1, ExpiredPublic(s, now));
    ElementsOf(o2, ExpiredUnlisted(s, now));
    SweptTwice(s, now, o1, {}, o2, ListedExpired(s, now));
    assert {} + ListedExpired(s, now) == ListedExpired(s, now);
    hide Swept, SettlementOk;
  }

  lemma ListedAreTunnels(s: State, now: int)
    ensures ExpiredUnlisted(s, now) !! ExpiredPublic(s, now) && ExpiredUnlisted(s, now) <= s.rows.Keys
    ensures ListedExpired(s, now) !! ExpiredUnlisted(s, now)
  {
  }

  lemma FirstLoopKeepsTunnels(s: State, now: int, o1: seq<string>)
    requires Enumerates(o1, ExpiredPublic(s, now))
    ensures ExpiredUnlisted(Swept(s, now, o1, {}), now) == ExpiredUnlisted(s, now)
    ensures ListedExpired(Swept(s, now, o1, {}), now) == ListedExpired(s, now)
  {
    ElementsOf(o1, ExpiredPublic(s, now));
    assert Swept(s, now, o1, {}).rows == SweptRows(s.rows, now, Elements(o1), {});
  }

  /** What the third loop finds. */
  lemma ThirdLoopTargets(s: State, now: int, order: seq<string>)
    requires Enumerates(order, ExpiredPublic(s, now) + ExpiredUnlisted(s, now))
    ensures var swept := Swept(s, now, order, ListedExpired(s, now));
      && AnonymousUnlisted(swept) == Removed(s, now) - ExpiredPublic(s, now) - ExpiredUnlisted(s, now)
      && forall id :: id in AnonymousUnlisted(swept) ==> swept.rows[id].expiresAt > now && swept.rows[id] == s.rows[id]
    ensures ExpiredPublic(s, now) + ExpiredUnlisted(s, now) <= Removed(s, now)
  {
    ElementsOf(order, ExpiredPublic(s, now) + ExpiredUnlisted(s, now));
    assert Swept(s, now, order, ListedExpired(s, now)).rows
        == SweptRows(s.rows, now, ExpiredPublic(s, now) + ExpiredUnlisted(s, now), ListedExpired(s, now));
  }

  lemma AnonymousAreFresh(s: State, s3: State, now: int, order: seq<string>)
    requires Enumerates(order, ExpiredPublic(s, now) + ExpiredUnlisted(s, now))
    requires s3 == Swept(s.(bindings := Unexpired(s.bindings, now)), now, order, ListedExpired(s, now))
    ensures forall id :: id in AnonymousUnlisted(s3) ==> s3.rows[id].expiresAt > now
    ensures AnonymousUnlisted(s3) == Removed(s, now) - ExpiredPublic(s, now) - ExpiredUnlisted(s, now)
  {
    ThirdLoopTargets(s, now, order);
    var swept := Swept(s, now, order, ListedExpired(s, now));
    assert s3.rows == swept.rows && s3.sockets == swept.sockets;
    assert AnonymousUnlisted(s3) == AnonymousUnlisted(swept);
  }

  lemma SweptToTheEnd(s: State, s3: State, s4: State, now: int, o12: seq<string>, o3: seq<string>)
    requires SettlementOk(s.requests)
    requires Enumerates(o12, ExpiredPublic(s, now) + ExpiredUnlisted(s, now))
    requires s3 == Swept(s.(bindings := Unexpired(s.bindings, now)), now, o12, ListedExpired(s, now))
    requires Enumerates(o3, AnonymousUnlisted(s3)) && s4 == Swept(s3, now, o3, {})
    ensures Enumerates(o12 + o3, Removed(s, now))
    ensures s4 == Swept(s.(bindings := Unexpired(s.bindings, now)), now, o12 + o3, ListedExpired(s, now))
  {
    AnonymousAreFresh(s, s3, now, o12);
    var early := ExpiredPublic(s, now) + ExpiredUnlisted(s, now);
    ThirdLoopTargets(s, now, o12);
    EnumeratesJoined(o12, o3, early, AnonymousUnlisted(s3));
    assert early + AnonymousUnlisted(s3) == Removed(s, now);
    ThirdLoopRows(s, now);
    SweptTwice(s.(bindings := Unexpired(s.bindings, now)), now, o12, ListedExpired(s, now), o3, {});
    assert ListedExpired(s, now) + {} == ListedExpired(s, now);
    hide Swept, SettlementOk;
  }

  lemma ThirdLoopRows(s: State, now: int)
    ensures Removed(s, now) !! ListedExpired(s, now) && Removed(s, now) <= s.rows.Keys
  {
  }

  lemma SweptSocketsOk(s: State, now: int, order: seq<string>)
    requires SocketsOk(s.sockets, s.ignored, s.rows) && Enumerates(order, Removed(s, now))
    ensures SocketsOk(s.sockets, s.ignored, SweptRows(s.rows, now, Elements(order), ListedExpired(s, now)))
  {
    SweptIsKept(s, now, order);
    forall w | w in s.sockets && w !in s.ignored
      ensures s.sockets[w].tag in KeptRows(s, now) && KeptRows(s, now)[s.sockets[w].tag].transport == Tunnel
    {
      assert Listed(s.sockets, s.sockets[w].tag);
    }
  }

  // ---- the loop of `expireStaleTunnels` ------------------------------------------------

  /** The stale sockets of the tunnels visited so far, closed. */
  ghost function PartlyClosed(sockets: map<nat, Socket>, rows: map<string, Row>, now: int,
                              visited: set<string>): map<nat, Socket> {
    map w | w in sockets ::
      if sockets[w].tag in visited && IsStale(rows, sockets[w], now) then sockets[w].(open := false) else sockets[w]
  }

  lemma UnvisitedUntouched(sockets: map<nat, Socket>, rows: map<string, Row>, now: int, visited: set<string>,
                           id: string)
    requires id !in visited
    ensures var c := PartlyClosed(sockets, rows, now, visited);
      && c.Keys == sockets.Keys
      && (forall w :: w in c && c[w].tag == id ==> c[w] == sockets[w])
      && (forall w :: w in sockets && sockets[w].tag == id ==> c[w] == sockets[w])
  {
  }

  /** Visiting a tunnel without an OPEN socket, or with a lively one, closes nothing. */
  lemma VisitQuiet(sockets: map<nat, Socket>, rows: map<string, Row>, now: int, visited: set<string>, id: string)
    requires forall w :: w in sockets && sockets[w].tag == id ==> !IsStale(rows, sockets[w], now)
    ensures PartlyClosed(sockets, rows, now, visited + {id}) == PartlyClosed(sockets, rows, now, visited)
  {
  }

  /** Visiting a silent tunnel closes its one OPEN socket. */
  lemma VisitStale(sockets: map<nat, Socket>, rows: map<string, Row>, now: int, visited: set<string>, id: string,
                   socket: nat)
    requires id !in visited && socket in sockets && sockets[socket].tag == id && IsStale(rows, sockets[socket], now)
    requires forall w :: w in sockets && sockets[w].tag == id && sockets[w].open ==> w == socket
    ensures PartlyClosed(sockets, rows, now, visited + {id})
         == PartlyClosed(sockets, rows, now, visited)[socket := sockets[socket].(open := false)]
  {
  }

  lemma AllClosed(sockets: map<nat, Socket>, rows: map<string, Row>, now: int, visited: set<string>)
    requires forall id :: id in rows && rows[id].transport == Tunnel ==> id in visited
    ensures PartlyClosed(sockets, rows, now, visited) == StaleClosed(sockets, rows, now)
  {
  }

  lemma NoneClosed(sockets: map<nat, Socket>, rows: map<string, Row>, now: int)
    ensures PartlyClosed(sockets, rows, now, {}) == sockets
  {
  }

  lemma OneOpen(sockets: map<nat, Socket>, ignored: set<nat>, rows: map<string, Row>, socket: nat)
    requires SocketsOk(sockets, ignored, rows) && socket in sockets && sockets[socket].open
    ensures forall w :: w in sockets && sockets[w].tag == sockets[socket].tag && sockets[w].open ==> w == socket
  {
  }
}
