/** Finding the route of a public request (src/public-ingress.ts). */
module PublicIngress {
  import opened Wrappers
  import opened Text
  import opened RouteState
  import opened RouteSteps
  import opened RouteInvariant
  import opened RoutePrimitives
  import opened RouteKeeps
  import opened RouteReachable
  import opened RouteCarry
  import opened RouterIndexModule
  import opened RouteDurableObjectModule
  import opened IngressUrls
  import RouteId

  /** `pathname.split("/").filter(Boolean)[0]`. */
  function FirstSegment(parts: seq<string>): Option<string> {
    if parts == [] then None else if parts[0] != "" then Some(parts[0]) else FirstSegment(parts[1..])
  }

  function Candidate(path: string): Option<string> {
    FirstSegment(Split(path, '/'))
  }

  /** The named route this path may belong to. */
  function NamedRoute(path: string): (r: Option<string>)
    ensures r.Some? ==> RouteId.IsValidRouteId(r.value)
  {
    var candidate := Candidate(path);
    if candidate.Some? && RouteId.IsValidRouteId(candidate.value) then candidate else None
  }

  /** A route with its active subscribers. */
  datatype Resolved = Resolved(routeId: string, remainingPath: string, subscribers: map<string, Row>)

  // ---- the index-free lookup -----------------------------------------------------------

  /** What `getActiveSubscribers` lists at `now`. */
  ghost function ActiveRows(s: State, now: int): map<string, Row> {
    var rows := KeptRows(s, now);
    map id | id in rows && IsActive(rows, StaleClosed(s.sockets, rows, now), id) :: rows[id]
  }

  lemma ActiveRowsAreListed(s: State, now: int, order: seq<string>)
    ensures var p := Purge(s, now, order);
      Active(p) == ActiveRows(s, now).Keys && forall id :: id in Active(p) ==> p.rows[id] == ActiveRows(s, now)[id]
  {
  }

  ghost function Found(path: string, routeId: string, active: map<string, Row>): Resolved {
    Resolved(routeId, RemainingPath(path, routeId), active)
  }

  /** Ask the named object, then the root object. */
  ghost function Lookup(path: string, named: map<string, Row>, root: map<string, Row>): Option<Resolved> {
    if NamedRoute(path).Some? && named != map[] then Some(Found(path, NamedRoute(path).value, named))
    else if root != map[] then Some(Found(path, "", root))
    else None
  }

  /** Ask only the objects that are in the index. */
  ghost function IndexedLookup(path: string, index: set<string>,
                               named: map<string, Row>, root: map<string, Row>): Option<Resolved> {
    if NamedRoute(path).Some? && NamedRoute(path).value in index && named != map[] then
      Some(Found(path, NamedRoute(path).value, named))
    else if "" in index && root != map[] then Some(Found(path, "", root))
    else None
  }

  /** A route with active subscribers is indexed, at the time of any later lookup. */
  lemma ActiveIsIndexed(s: State, now: int)
    requires Inv(s) && s.clock <= now && ActiveRows(s, now) != map[]
    ensures s.indexed
  {
    ClockAdvances(s, now);
    PurgeSockets(s, now);
    var id :| id in ActiveRows(s, now);
    assert IsActive(KeptRows(s, now), StaleClosed(s.sockets, KeptRows(s, now), now), id);
  }

  // ---- all routes together --------------------------------------------------------------

  /** Every Durable Object by name, and the router index. */
  datatype World = World(objects: string -> State, index: set<string>)

  ghost function ObjectOf(w: World, routeId: string): State {
    w.objects(RouteId.DurableObjectNameForRoute(routeId))
  }

  ghost predicate InStep(w: World, routeId: string) {
    ObjectOf(w, routeId).name == routeId && (ObjectOf(w, routeId).indexed <==> routeId in w.index)
  }

  ghost predicate WorldOk(w: World) {
    forall routeId :: RouteId.IsAllowedRouteId(routeId) ==> InStep(w, routeId) && Inv(ObjectOf(w, routeId))
  }

  /** New objects; the index may hold stale routes. */
  ghost predicate WorldInitial(w: World) {
    forall routeId :: RouteId.IsAllowedRouteId(routeId) ==> InStep(w, routeId) && Initial(ObjectOf(w, routeId))
  }

  /** One handler of one route's object runs. */
  datatype Move = Move(routeId: string, step: Step)

  ghost predicate CanMove(w: World, m: Move) {
    RouteId.IsAllowedRouteId(m.routeId) && Enabled(ObjectOf(w, m.routeId), m.step)
  }

  ghost function Moved(w: World, m: Move): World {
    var moved := RouteId.DurableObjectNameForRoute(m.routeId);
    var next := Next(w.objects(moved), m.step);
    World((name: string) => if name == moved then next else w.objects(name),
          if next.indexed then w.index + {m.routeId} else w.index - {m.routeId})
  }

  ghost predicate Moves(w: World, moves: seq<Move>)
    decreases |moves|
  {
    moves == [] || (CanMove(w, moves[0]) && Moves(Moved(w, moves[0]), moves[1..]))
  }

  ghost function AfterMoves(w: World, moves: seq<Move>): World
    decreases |moves|
  {
    if moves == [] then w else AfterMoves(Moved(w, moves[0]), moves[1..])
  }

  lemma CallKeepsName(s: State, step: Step)
    requires IsCall(step)
    ensures Effect(s, step).name == s.name
  {
    hide Purge, Attach, CleanupAt, IsRejected, JoinedId, ClosedFor, Failed, Dropped, TagSet, BindingsWithout,
         RemoveRow, TunnelJoin, PublicJoin, JoinOf;
    PurgeFrame(s, step.now, step.order);
    if step.Fetch? {
      AttachFrame(Welcomed(s, step.now, step.routeId, step.order), TunnelJoin(step), step.draw, step.now);
    } else if step.Register? {
      AttachFrame(Welcomed(s, step.now, step.routeId, step.order), PublicJoin(step), step.draw, step.now);
    } else if step.Deregister? {
      DroppedFrame(s, step.subscriberId);
      PurgeFrame(Dropped(s, step.subscriberId), step.now, step.order);
    }
  }

  lemma QueryKeepsName(s: State, step: Step)
    requires IsQuery(step)
    ensures Effect(s, step).name == s.name
  {
    hide KeptRows, KeptBindings, StaleClosed, RemovalEvents, Failed, OAuthTarget, Sending, Removed;
    if step.FanOut? {
      DeliveriesKeepName(Purge(s, step.now, step.order), step.targets, step.requestId, step.tooLarge, step.broken,
                         step.now);
    }
  }

  lemma NameIsKept(s: State, step: Step)
    ensures Next(s, step).name == s.name
  {
    hide Effect;
    if IsCall(step) {
      CallKeepsName(s, step);
    } else if IsQuery(step) {
      QueryKeepsName(s, step);
    } else {
      EventKeepsName(s, step);
    }
  }

  lemma EventKeepsName(s: State, step: Step)
    requires !IsCall(step) && !IsQuery(step)
    ensures Effect(s, step).name == s.name
  {
    hide Purge, Failed, CleanupAt, Answer, TimeOut, BindingsWithout;
    if step.AlarmFires? {
      PurgeFrame(s.(alarm := None), step.now, step.order);
    }
  }

  lemma {:induction false} DeliveriesKeepName(s: State, ids: seq<string>, requestId: string, tooLarge: bool,
                                              broken: set<string>, now: int)
    ensures DeliverAll(s, ids, requestId, tooLarge, broken, now).name == s.name
    decreases |ids|
  {
    if ids != [] {
      DeliveriesKeepName(s, ids[..|ids| - 1], requestId, tooLarge, broken, now);
    }
  }

  /** No handler touches another route's object or index entry. */
  lemma MoveKeeps(w: World, m: Move)
    requires WorldOk(w) && CanMove(w, m)
    ensures WorldOk(Moved(w, m))
    ensures forall other :: RouteId.IsAllowedRouteId(other) && other != m.routeId ==>
      ObjectOf(Moved(w, m), other) == ObjectOf(w, other) && (other in Moved(w, m).index <==> other in w.index)
  {
    hide Inv, Enabled, Next, Initial;
    StepKeeps(ObjectOf(w, m.routeId), m.step);
    NameIsKept(ObjectOf(w, m.routeId), m.step);
    forall other | RouteId.IsAllowedRouteId(other)
      ensures InStep(Moved(w, m), other) && Inv(ObjectOf(Moved(w, m), other))
      ensures other != m.routeId ==> ObjectOf(Moved(w, m), other) == ObjectOf(w, other)
    {
      RouteId.ObjectNamesAreDistinct(other, m.routeId);
      assert InStep(w, other) && InStep(w, m.routeId);
    }
  }

  lemma {:induction false} MovesKeep(w: World, moves: seq<Move>)
    requires WorldOk(w) && Moves(w, moves)
    ensures WorldOk(AfterMoves(w, moves))
    decreases |moves|
  {
    if moves != [] {
      MoveKeeps(w, moves[0]);
      MovesKeep(Moved(w, moves[0]), moves[1..]);
    }
  }

  ghost function ActiveOn(w: World, routeId: Option<string>, now: int): map<string, Row> {
    if routeId.None? then map[] else ActiveRows(ObjectOf(w, routeId.value), now)
  }

  /**
   The index is a sound cache: after any run of any handlers on any routes, a lookup that consults it
   finds the same route, remaining path and subscribers as one that asks the route objects themselves.
   */
  lemma IndexIsSoundCache(start: World, moves: seq<Move>, path: string, now: int)
    requires WorldInitial(start) && Moves(start, moves)
    requires forall routeId :: RouteId.IsAllowedRouteId(routeId) ==>
      ObjectOf(AfterMoves(start, moves), routeId).clock <= now
    ensures var w := AfterMoves(start, moves);
      var named, root := ActiveOn(w, NamedRoute(path), now), ActiveOn(w, Some(""), now);
      IndexedLookup(path, w.index, named, root) == Lookup(path, named, root)
  {
    hide Inv, Initial, ActiveRows, Moves, AfterMoves;
    forall routeId | RouteId.IsAllowedRouteId(routeId) ensures Inv(ObjectOf(start, routeId)) {
      InitialHolds(ObjectOf(start, routeId));
    }
    MovesKeep(start, moves);
    var w := AfterMoves(start, moves);
    forall routeId | RouteId.IsAllowedRouteId(routeId) && ActiveRows(ObjectOf(w, routeId), now) != map[]
      ensures routeId in w.index
    {
      assert InStep(w, routeId);
      ActiveIsIndexed(ObjectOf(w, routeId), now);
    }
  }

  /** The remaining path is what follows `/routeId`, when nothing or a slash does. */
  lemma RemainingPathIsSuffix(path: string, routeId: string)
    requires RouteId.IsValidRouteId(routeId)
    requires path == "/" + routeId || StartsWith(path, "/" + routeId + "/")
    ensures "/" + routeId + RemainingPath(path, routeId) == path
    ensures NamedRoute(path) == Some(routeId)
  {
    hide Split, FirstSegment;
    var rest := RemainingPath(path, routeId);
    assert path == ("/" + routeId) + rest;
    NamedByPrefix(routeId, rest);
  }

  /** The catch-all is given the whole path, and never an empty one; so is a route whose prefix the path lacks. */
  lemma RemainingPathWithoutPrefix(path: string, routeId: string)
    requires routeId == "" || !(path == "/" + routeId || StartsWith(path, "/" + routeId + "/"))
    ensures RemainingPath(path, routeId) == if routeId == "" && path == "" then "/" else path
  {
  }

  lemma NamedByPrefix(routeId: string, rest: string)
    requires RouteId.IsValidRouteId(routeId) && (rest == "" || rest[0] == '/')
    ensures Candidate("/" + routeId + rest) == Some(routeId)
  {
    var path := "/" + routeId + rest;
    assert '/' !in routeId by {
      assert !RouteId.IsRouteIdChar('/');
    }
    SplitWhole(routeId, '/');
    assert Split("", '/') == [""];
    var body := routeId + rest;
    assert path == "" + ['/'] + body;
    SplitAppend("", body, '/');
    if rest == "" {
      assert body == routeId;
    } else {
      assert body == routeId + ['/'] + rest[1..];
      SplitAppend(routeId, rest[1..], '/');
    }
    var parts := Split(body, '/');
    assert parts[0] == routeId && Split(path, '/') == [""] + parts;
    hide Split;
    assert ([""] + parts)[1..] == parts;
    assert FirstSegment(parts) == Some(routeId);
    assert FirstSegment([""] + parts) == Some(routeId);
  }

  /** The candidate is what stands between the leading slashes, however many, and the next one or the end. */
  lemma {:induction false} CandidateIs(slashes: string, name: string, rest: string)
    requires forall i :: 0 <= i < |slashes| ==> slashes[i] == '/'
    requires '/' !in name && (rest == "" || rest[0] == '/') && (name == "" ==> rest == "")
    ensures Candidate(slashes + name + rest) == if name == "" then None else Some(name)
    decreases |slashes|
  {
    hide Split;
    if slashes == "" {
      assert slashes + name + rest == name + rest;
      CandidateOfName(name, rest);
    } else {
      var tail := slashes[1..] + name + rest;
      CandidateIs(slashes[1..], name, rest);
      assert slashes + name + rest == "" + ['/'] + tail;
      SplitAppend("", tail, '/');
      SplitWhole("", '/');
      var parts := Split(tail, '/');
      assert ([""] + parts)[1..] == parts;
      assert FirstSegment([""] + parts) == FirstSegment(parts);
    }
  }

  lemma CandidateOfName(name: string, rest: string)
    requires '/' !in name && (rest == "" || rest[0] == '/') && (name == "" ==> rest == "")
    ensures Candidate(name + rest) == if name == "" then None else Some(name)
  {
    hide Split;
    SplitWhole(name, '/');
    if rest == "" {
      assert name + rest == name;
      assert [name][1..] == [] && FirstSegment([name]) == if name == "" then FirstSegment([]) else Some(name);
    } else {
      SplitAppend(name, rest[1..], '/');
      assert name + rest == name + ['/'] + rest[1..];
      var parts := [name] + Split(rest[1..], '/');
      assert parts[0] == name && FirstSegment(parts) == Some(name);
    }
  }

  /** The router's own namespaces are never a named route's. */
  lemma ReservedPathsNameNoRoute(slashes: string, name: string, rest: string)
    requires forall i :: 0 <= i < |slashes| ==> slashes[i] == '/'
    requires (name == "_router" || name == "dashboard") && (rest == "" || rest[0] == '/')
    ensures NamedRoute(slashes + name + rest).None?
  {
    CandidateIs(slashes, name, rest);
  }

  /** Behind doubled slashes a route is found, and yet its prefix is not stripped. */
  lemma DoubledSlashIsNotStripped(slashes: string, routeId: string, rest: string)
    requires |slashes| >= 2 && forall i :: 0 <= i < |slashes| ==> slashes[i] == '/'
    requires RouteId.IsValidRouteId(routeId) && (rest == "" || rest[0] == '/')
    ensures var path := slashes + routeId + rest;
      NamedRoute(path) == Some(routeId) && RemainingPath(path, routeId) == path
  {
    var path := slashes + routeId + rest;
    assert '/' !in routeId by {
      assert !RouteId.IsRouteIdChar('/');
    }
    CandidateIs(slashes, routeId, rest);
    assert path[1] == '/' && ("/" + routeId)[1] == routeId[0];
    assert routeId[0] in routeId;
  }

  /** Someone in the table is public, has an OPEN socket, or is an environment's tunnel. */
  ghost predicate CountsAsActive(s: State, id: string) {
    id in s.rows &&
    (|| s.rows[id].transport == Public || s.rows[id].environmentId.Some?
     || exists w :: w in s.sockets && s.sockets[w].tag == id && s.sockets[w].open)
  }

  /**
   What the lookup finds, told on the purged objects of the named route and of the catch-all: the named
   route if anybody is active there, else the catch-all if anybody is active there, each with all of its
   active rows.
   */
  lemma LookupMeans(path: string, named: State, root: State, now: int, p: State, q: State, order: seq<string>,
                    rootOrder: seq<string>)
    requires p == Purge(named, now, order) && q == Purge(root, now, rootOrder)
    ensures var found := Lookup(path, NamedRows(path, named, now), ActiveRows(root, now));
      var here := NamedRoute(path).Some? && exists id :: CountsAsActive(p, id);
      var there := exists id :: CountsAsActive(q, id);
      && (found.Some? <==> here || there)
      && (found.Some? ==>
            && found.value.routeId == (if here then NamedRoute(path).value else "")
            && found.value.remainingPath == RemainingPath(path, found.value.routeId)
            && var s := if here then p else q;
               forall id :: (id in found.value.subscribers <==> CountsAsActive(s, id))
                 && (CountsAsActive(s, id) ==> found.value.subscribers[id] == s.rows[id]))
  {
    hide Purge, NamedRoute, RemainingPath, ActiveRows;
    ActiveRowsAreListed(named, now, order);
    ActiveRowsAreListed(root, now, rootOrder);
    forall id ensures id in Active(p) <==> CountsAsActive(p, id) {
    }
    forall id ensures id in Active(q) <==> CountsAsActive(q, id) {
    }
    hide Active, CountsAsActive;
    assert forall id :: id in ActiveRows(named, now) <==> id in Active(p);
    assert forall id :: id in ActiveRows(root, now) <==> id in Active(q);
  }

  // ---- the lookup itself ------------------------------------------------------------------

  datatype PublicRoute = PublicRoute(routeId: string, remainingPath: string, subscribers: seq<SubscriberView>)

  /** The route found is the one looked for, its subscribers listed oldest first. */
  ghost predicate Shows(found: Option<PublicRoute>, expected: Option<Resolved>) {
    && (found.Some? <==> expected.Some?)
    && (found.Some? ==>
          && found.value.routeId == expected.value.routeId
          && found.value.remainingPath == expected.value.remainingPath
          && Lists(found.value.subscribers, expected.value.subscribers.Keys, expected.value.subscribers))
  }

  ghost function NamedRows(path: string, named: State, now: int): map<string, Row> {
    if NamedRoute(path).None? then map[] else ActiveRows(named, now)
  }

  lemma ListedRows(views: seq<SubscriberView>, s: State, t: State, now: int, order: seq<string>)
    requires t == Next(s, Step.GetActive(now, order)) && Lists(views, Active(t), t.rows)
    ensures Lists(views, ActiveRows(s, now).Keys, ActiveRows(s, now))
    ensures |views| == 0 <==> ActiveRows(s, now) == map[]
  {
    hide ActiveRows, Purge, Survives, Kept;
    ActiveRowsAreListed(s, now, order);
    assert Active(t) == Active(Purge(s, now, order));
    NoneListed(views, Active(t), t.rows);
    hide Purge;
  }

  /** Running these steps leads from one state to the other. */
  ghost predicate Ran(s: State, steps: seq<Step>, t: State) {
    Runs(s, steps) && t == After(s, steps)
  }

  lemma RanNothing(s: State)
    ensures Ran(s, [], s)
  {
  }

  lemma RanOne(s: State, step: Step)
    requires Enabled(s, step)
    ensures Ran(s, [step], Next(s, step))
  {
    hide Enabled, Next;
    var steps := [step];
    assert steps[0] == step && steps[1..] == [];
    RanNothing(Next(s, step));
    assert Runs(s, steps);
    assert After(s, steps) == After(Next(s, step), []);
  }

  lemma {:induction false} RanThen(s: State, first: seq<Step>, t: State, second: seq<Step>, u: State)
    requires Ran(s, first, t) && Ran(t, second, u)
    ensures Ran(s, first + second, u)
    decreases |first|
  {
    hide Enabled, Next;
    if first == [] {
      assert first + second == second;
    } else {
      assert (first + second)[1..] == first[1..] + second;
      RanThen(Next(s, first[0]), first[1..], t, second, u);
    }
  }

  /** At most one question for the active subscribers. */
  ghost predicate AsksOnce(steps: seq<Step>, now: int) {
    |steps| <= 1 && forall i :: 0 <= i < |steps| ==> steps[i].GetActive? && steps[i].now == now
  }

  /**
   `named` and `root` are the objects of the path's named route and of the catch-all; the answer is the
   index-free lookup's, although an object that is not in the index is not even asked. `asked` are the
   questions put to each of the two.
   */
  method ResolvePublicRoute(path: string, index: RouterIndex, named: RouteDurableObject, root: RouteDurableObject,
                            now: int)
    returns (found: Option<PublicRoute>, ghost asked: (seq<Step>, seq<Step>))
    requires named.index == index && root.index == index && root.name == "" && named != root
    requires NamedRoute(path).Some? ==> named.name == NamedRoute(path).value
    requires Inv(named.St()) && Inv(root.St()) && named.clock <= now && root.clock <= now
    modifies named, root
    ensures Shows(found, Lookup(path, old(NamedRows(path, named.St(), now)), old(ActiveRows(root.St(), now))))
    ensures Inv(named.St()) && Inv(root.St()) && named.clock <= now && root.clock <= now
    ensures Ran(old(named.St()), asked.0, named.St()) && AsksOnce(asked.0, now)
    ensures Ran(old(root.St()), asked.1, root.St()) && AsksOnce(asked.1, now)
    ensures found.Some? && found.value.routeId != "" ==> found.value.routeId == named.name
    ensures found.Some? ==>
      && RouteId.IsAllowedRouteId(found.value.routeId)
      && found.value.remainingPath == RemainingPath(path, found.value.routeId)
  {
    hide Inv, ActiveRows, Next, Enabled, Lists, Active, Runs, After;
    asked := ([], []);
    RanNothing(named.St());
    RanNothing(root.St());
    ghost var s, t := named.St(), root.St();
    var candidate := NamedRoute(path);
    var indexedNamed, indexedRoot := index.IndexedPublicRoutePresence(candidate);
    if ActiveRows(s, now) != map[] {
      ActiveIsIndexed(s, now);
    }
    if ActiveRows(t, now) != map[] {
      ActiveIsIndexed(t, now);
    }
    if indexedNamed {
      var views, order := named.GetActiveSubscribers(now);
      ListedRows(views, s, named.St(), now, order);
      RanOne(s, Step.GetActive(now, order));
      asked := ([Step.GetActive(now, order)], []);
      ClockIs(s, now, order);
      if |views| > 0 {
        found := Some(PublicRoute(candidate.value, RemainingPath(path, candidate.value), views));
        return;
      }
    }
    if indexedRoot {
      var views, order := root.GetActiveSubscribers(now);
      ListedRows(views, t, root.St(), now, order);
      RanOne(t, Step.GetActive(now, order));
      asked := (asked.0, [Step.GetActive(now, order)]);
      ClockIs(t, now, order);
      if |views| > 0 {
        found := Some(PublicRoute("", RemainingPath(path, ""), views));
        return;
      }
    }
    found := None;
  }

  lemma ClockIs(s: State, now: int, order: seq<string>)
    ensures Next(s, Step.GetActive(now, order)).clock == now
  {
  }

  // ---- two routes, one index -----------------------------------------------------------------

  lemma JoinedRowIsPublic(w: State, j: Join, draw: Draw, now: int)
    requires j.transport == Public
    ensures JoinedRow(w, j, draw, now).transport == Public && JoinedRow(w, j, draw, now).expiresAt > now
  {
  }

  /** A registered subscriber is active at once. */
  lemma RegisteredIsActive(s: State, step: Step)
    requires step.Register? && Joined(s, step).Some?
    ensures Joined(s, step).value in ActiveRows(Next(s, step), step.now)
  {
    hide KeptRows, KeptBindings, NextRegister, JoinedRow, Joined, Welcomed, IsRejected;
    RegisterSummary(s, step);
    JoinedRowIsPublic(WelcomedBy(s, step), PublicJoin(step), step.draw, step.now);
    PublicRowIsActive(Next(s, step), Joined(s, step).value, step.now);
  }

  lemma PublicRowIsActive(t: State, id: string, now: int)
    requires id in t.rows && t.rows[id].transport == Public && t.rows[id].expiresAt > now
    ensures id in ActiveRows(t, now)
  {
  }

  /**
   Registering a public subscriber on a named route makes the very next request to that route find it,
   whatever is registered on the root; the root's object and its index entry are as they were.
   */
  method RegisterThenResolve(path: string, index: RouterIndex, named: RouteDurableObject, root: RouteDurableObject,
                             now: int,
                             environmentId: Option<string>, targetBaseUrl: string, acceptWebhooks: bool,
                             presented: string, clientIp: Option<string>, draw: Draw)
    returns (response: JoinResponse, found: Option<PublicRoute>)
    requires named.index == index && root.index == index && root.name == "" && named != root
    requires NamedRoute(path) == Some(named.name)
    requires Inv(named.St()) && Inv(root.St()) && named.clock <= now && root.clock <= now && FreshDraw(named.St(), draw)
    modifies named, root, index
    ensures Inv(named.St()) && Inv(root.St())
    ensures response.Welcome? ==>
      && found.Some? && found.value.routeId == named.name
      && exists i :: 0 <= i < |found.value.subscribers| && found.value.subscribers[i].id == response.subscriberId
    ensures SameElsewhere(old(index.routes), index.routes, named.name)
  {
    hide Inv, ActiveRows, Enabled, Next, Joined, Lists, FreshDraw;
    ghost var s := named.St();
    var answer, order := named.Register(now, named.name, environmentId, targetBaseUrl, acceptWebhooks, presented,
                                        clientIp, draw);
    response := answer;
    ghost var step := Step.Register(now, named.name, environmentId, targetBaseUrl, acceptWebhooks, presented, clientIp,
                                    draw, order);
    ghost var r := Next(s, step);
    RegisterClock(s, step);
    AddingKeepsActive(r, now);
    if response.Welcome? {
      named.AddToIndex(now);
    }
    ghost var t := named.St();
    assert root.St() == old(root.St());
    var route, _ := ResolvePublicRoute(path, index, named, root, now);
    found := route;
    if response.Welcome? {
      RegisteredIsActive(s, step);
      ListedIfShown(found.value.subscribers, ActiveRows(t, now), response.subscriberId);
    }
  }

  lemma RegisterClock(s: State, step: Step)
    ensures Next(s, step).clock == step.now
  {
    hide Effect;
  }

  lemma AddingKeepsActive(s: State, now: int)
    ensures ActiveRows(Next(s, Step.AddToIndex(now)), now) == ActiveRows(s, now)
    ensures Next(s, Step.AddToIndex(now)).clock == now
  {
    hide Survives, Kept, StaleClosed, IsActive, Listed;
    assert KeptRows(Next(s, Step.AddToIndex(now)), now) == KeptRows(s, now);
  }

  lemma ListedIfShown(views: seq<SubscriberView>, rows: map<string, Row>, id: string)
    requires Lists(views, rows.Keys, rows) && id in rows
    ensures exists i :: 0 <= i < |views| && views[i].id == id
  {
  }
}
