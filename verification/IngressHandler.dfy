/** Accepting one public request: reject it, proxy an OAuth callback, or fan a webhook out (src/public-ingress.ts). */
module IngressHandler {
  import opened Wrappers
  import opened Base64
  import opened RouteState
  import opened RouteSteps
  import opened RouteInvariant
  import opened RouteGuarantees
  import opened RouteRequests
  import opened RouterIndexModule
  import opened RouteDurableObjectModule
  import opened PublicIngress
  import opened OAuthState
  import IngressBody
  import IngressUrls
  import opened WebhookFilterPath
  import WebhookPathFilter

  /** A request with its URL already parsed; `query` holds the callback parameters of `search`. */
  datatype Request = Request(
    method_: string,
    path: string,
    search: string,
    query: CallbackParams,
    contentLength: Option<string>,
    stream: Option<seq<seq<Byte>>>)

  /** What the router is told or looks up on the way. */
  datatype Surroundings = Surroundings(
    isProbe: string -> bool,                                  // the scanner-probe test
    formOf: seq<Byte> -> CallbackParams,                      // the body's form fields, if it is a form
    allowedPaths: string -> seq<string>,                      // OAuth callback paths of a route
    settings: string -> WebhookPathFilter.Settings,           // fan-out settings of a route
    verified: string -> Option<Signed>)                       // the signed-state check

  datatype Verdict = Unseen | NoRoute | TooLarge | Rejected(why: DeliveryClass) | ToSubscriber | ToAll

  function WithForm(query: CallbackParams, form: CallbackParams): CallbackParams {
    CallbackParams(Param(query.state, form.state), Param(query.code, form.code), Param(query.error, form.error))
  }

  predicate IsUnseen(path: string, isProbe: string -> bool) {
    isProbe(path) || IngressUrls.DotDotWithin(path, IngressUrls.MAX_DECODE_ROUNDS)
  }

  /** The body that gets past the cap. */
  function Body(request: Request): Option<seq<Byte>> {
    var declared := IngressBody.DeclaredLength(request.contentLength);
    if declared.Some? && declared.value > IngressBody.TUNNEL_MAX_BODY_BYTES then None
    else if request.stream.None? then Some([])
    else if IngressBody.Total(request.stream.value) > IngressBody.TUNNEL_MAX_BODY_BYTES then None
    else Some(IngressBody.Concat(request.stream.value))
  }

  function ParamsOf(request: Request, around: Surroundings, body: seq<Byte>): CallbackParams {
    WithForm(request.query, around.formOf(body))
  }

  function ClassOf(request: Request, around: Surroundings, routeId: string, remainingPath: string,
                   body: seq<Byte>): DeliveryClass {
    Classify(remainingPath, ParamsOf(request, around, body), Some(request.method_), around.allowedPaths(routeId))
  }

  function VerdictFor(delivery: DeliveryClass): Verdict {
    match delivery
    case OAuth => ToSubscriber
    case Fanout => ToAll
    case why => Verdict.Rejected(why)
  }

  /** What is to become of a request to a route. */
  function VerdictOn(request: Request, around: Surroundings, routeId: string, remainingPath: string): (v: Verdict)
    ensures !v.Unseen? && !v.NoRoute?
  {
    if Body(request).None? then TooLarge
    else VerdictFor(ClassOf(request, around, routeId, remainingPath, Body(request).value))
  }

  /** What is to become of a request. */
  function VerdictOf(request: Request, around: Surroundings, route: Option<Resolved>): Verdict {
    if IsUnseen(request.path, around.isProbe) then Unseen
    else if route.None? then NoRoute
    else VerdictOn(request, around, route.value.routeId, route.value.remainingPath)
  }

  datatype LogKind = WebhookKind | OAuthKind

  datatype LogResult = LogAccepted | LogProxied | LogRejected

  /** What the router records of a request: metadata only. */
  datatype InboundEvent = InboundEvent(
    id: string, method_: string, routeId: Option<string>, remainingPath: string, search: string,
    kind: LogKind, result: LogResult, status: int, error: Option<string>,
    subscriberCount: nat, deliveredCount: nat, bodyBytes: int)

  /** The answer's verdict, the event recorded for it, and what a proxied callback came to. */
  datatype Answer = Answer(verdict: Verdict, log: Option<InboundEvent>, proxied: Option<ProxyResult>)

  /**
   A request to a path with callback segments, or with a state in the signed form, is never fanned out; a
   proxied one is allowlisted, brings a result, and comes by GET or POST.
   */
  lemma CallbacksAreNotFannedOut(request: Request, around: Surroundings, route: Resolved, body: seq<Byte>)
    requires Body(request) == Some(body)
    ensures var params := ParamsOf(request, around, body);
      var allowed := around.allowedPaths(route.routeId);
      var listed := exists a :: a in allowed && Normalize(a) == Normalize(route.remainingPath);
      && (HasCallbackSegments(route.remainingPath) || StartsAsSigned(params.state) || listed ==>
            VerdictOf(request, around, Some(route)) != ToAll)
      && (VerdictOf(request, around, Some(route)) == ToSubscriber ==>
            listed && BringsResult(params) && MayBeCallback(Some(request.method_)))
  {
    var allowed := around.allowedPaths(route.routeId);
    ClassifyMeans(route.remainingPath, ParamsOf(request, around, body), Some(request.method_), allowed);
    hide Classify, HasCallbackSegments, Normalize, IngressUrls.DotDotWithin, MayBeCallback, BringsResult,
         StartsAsSigned, ParamsOf, Body;
  }

  /** The kind logged for a request whose body is not read: judged by its query alone. */
  function KindWithoutBody(request: Request, path: string, allowed: seq<string>): LogKind {
    if Classify(path, request.query, Some(request.method_), allowed) == Fanout then WebhookKind else OAuthKind
  }

  /** How the delivery of a proxied callback ends, seconds later. */
  datatype ProxyEnd = Responded(status: int) | Unreachable

  /** How a request ends: the logged result, the status of the response, and its error. */
  datatype Conclusion = Conclusion(result: LogResult, status: int, error: Option<string>)

  /** A delivery under way has no conclusion before its end. */
  function ConcludeProxy(proxied: ProxyResult, end: Option<ProxyEnd>): Option<Conclusion> {
    match proxied
    case RouteNotFound => Some(Conclusion(LogRejected, 404, Some("route_not_found")))
    case Unroutable => Some(Conclusion(LogRejected, 409, Some("oauth_unroutable")))
    case OAuthSubscriberNotFound => Some(Conclusion(LogRejected, 404, Some("oauth_subscriber_not_found")))
    case RequestTooLarge => Some(Conclusion(LogRejected, 413, Some("request_too_large")))
    case Proxied(_, _) =>
      if end.None? then None
      else if end.value.Responded? then Some(Conclusion(LogProxied, end.value.status, None))
      else Some(Conclusion(LogRejected, 502, Some("subscriber_unreachable")))
  }

  function ConcludeRejected(why: DeliveryClass): Conclusion {
    match why
    case CallbackIncomplete => Conclusion(LogRejected, 404, Some("oauth_callback_incomplete"))
    case MethodNotAllowed => Conclusion(LogRejected, 405, Some("oauth_method_not_allowed"))
    case _ => Conclusion(LogRejected, 404, Some("oauth_callback_not_registered"))
  }

  function Conclude(verdict: Verdict, proxied: Option<ProxyResult>, end: Option<ProxyEnd>): Option<Conclusion> {
    match verdict
    case Unseen => Some(Conclusion(LogRejected, 404, Some("route_not_found")))
    case NoRoute => Some(Conclusion(LogRejected, 404, Some("route_not_found")))
    case TooLarge => Some(Conclusion(LogRejected, 413, Some("request_too_large")))
    case Rejected(why) => Some(ConcludeRejected(why))
    case ToSubscriber => if proxied.None? then None else ConcludeProxy(proxied.value, end)
    case ToAll => Some(Conclusion(LogAccepted, 202, None))
  }

  const BODY_BYTES_LIMIT := 1_000_000_000

  /** `inboundBodyBytes` of a request whose body was not read. */
  function DeclaredBytes(request: Request): int {
    var declared := IngressBody.DeclaredLength(request.contentLength);
    if declared.None? then 0 else if declared.value > BODY_BYTES_LIMIT then BODY_BYTES_LIMIT else declared.value
  }

  /** What an oversized body is rejected with: the declared length, or the first total over the cap. */
  function OversizedBytes(request: Request): int {
    var declared, cap := IngressBody.DeclaredLength(request.contentLength), IngressBody.TUNNEL_MAX_BODY_BYTES;
    if declared.Some? && declared.value > cap then declared.value
    else if request.stream.Some? && IngressBody.Total(request.stream.value) > cap then
      IngressBody.FirstTotalOver(request.stream.value, cap)
    else 0
  }

  function BodyBytes(request: Request, verdict: Verdict): int {
    if verdict.NoRoute? then DeclaredBytes(request)
    else if Body(request).None? then OversizedBytes(request)
    else |Body(request).value|
  }

  function LogKindOf(request: Request, around: Surroundings, route: PublicRoute, verdict: Verdict): LogKind {
    if verdict.TooLarge? then KindWithoutBody(request, route.remainingPath, around.allowedPaths(route.routeId))
    else if verdict.ToAll? then WebhookKind else OAuthKind
  }

  /** How many subscribers get the request: a webhook's count, one for a callback that was answered. */
  function DeliveredCount(verdict: Verdict, conclusion: Conclusion, count: nat): nat {
    if verdict.ToAll? then count else if conclusion.result == LogProxied then 1 else 0
  }

  /**
   The event recorded for a verdict on a route found or not; `count` is the number of a webhook's
   targets. A proxied callback has none until its delivery has ended.
   */
  function LogOf(request: Request, around: Surroundings, requestId: string, route: Option<PublicRoute>,
                 verdict: Verdict,
                 proxied: Option<ProxyResult>, end: Option<ProxyEnd>, count: nat): Option<InboundEvent> {
    var conclusion, bytes := Conclude(verdict, proxied, end), BodyBytes(request, verdict);
    if verdict.Unseen? || conclusion.None? then None
    else
      var c := conclusion.value;
      if route.None? then
        var path := if request.path == "" then "/" else request.path;
        Some(InboundEvent(requestId, request.method_, None, path, request.search, KindWithoutBody(request, path, []),
                          c.result, c.status, c.error, 0, 0, bytes))
      else
        Some(InboundEvent(requestId, request.method_, Some(route.value.routeId), route.value.remainingPath,
                          request.search,
                          LogKindOf(request, around, route.value, verdict), c.result, c.status, c.error,
                          |route.value.subscribers|, DeliveredCount(verdict, c, count), bytes))
  }

  /** The end of a delivery, as the route's object shows it: that of a tunnel request is its promise's one outcome. */
  ghost predicate EndsAs(t: State, delivery: Delivery, end: ProxyEnd) {
    match delivery
    case Awaiting(p) =>
      && p in t.requests.outcomes && |t.requests.outcomes[p]| == 1
      && (end.Responded? <==> t.requests.outcomes[p] == [Answered])
    case Fetched(_) => true
    case DeliveryTooLarge => false
  }

  /** Once a delivery has ended, it has ended that way in every later state. */
  lemma EndIsFinal(t: State, steps: seq<Step>, delivery: Delivery, end: ProxyEnd)
    requires Inv(t) && Runs(t, steps) && EndsAs(t, delivery, end)
    ensures EndsAs(After(t, steps), delivery, end)
  {
    hide Inv, Runs, After;
    if delivery.Awaiting? {
      SettledForGood(t, steps, delivery.promise);
    }
  }

  lemma SendingMakesPromise(r: Requests, open: bool, throws: bool, id: string, requestId: string, now: int)
    ensures var t := Sending(r, open, throws, id, requestId, now);
      r.nextPromise in t.outcomes && Answered !in t.outcomes[r.nextPromise]
  {
  }

  /** Right after the proxy step, the promise it waits for is there and not answered. */
  lemma AwaitedIsUnanswered(s: State, step: Step, id: string, p: nat)
    requires step.ProxyOAuth?
    requires var purged := Purge(s, step.now, step.order);
      ProxyAnswer(purged, OAuthTarget(purged, step.oauthState, step.signed, step.now), step.tooLarge)
        == Proxied(id, Awaiting(p))
    ensures var t := Next(s, step).requests;
      p in t.outcomes && Answered !in t.outcomes[p]
  {
    hide Purge, OAuthTarget, Sending, Enabled;
    var purged := Purge(s, step.now, step.order);
    var extended := Extend(purged, id, step.now);
    SendingMakesPromise(purged.requests, HasOpen(extended.sockets, id), id in step.broken, id, step.requestId,
                        step.now);
  }

  /**
   A callback sent over a tunnel is logged as proxied exactly if its promise was answered, and then a
   client's response message that carries its id answered it after it was sent.
   */
  lemma LoggedProxyMeans(request: Request, around: Surroundings, requestId: string, route: PublicRoute,
                         s: State, steps: seq<Step>, id: string, p: nat, end: ProxyEnd)
    requires Inv(s) && Runs(s, steps) && p in s.requests.outcomes && Answered !in s.requests.outcomes[p]
    requires EndsAs(After(s, steps), Awaiting(p), end)
    ensures var log := LogOf(request, around, requestId, Some(route), ToSubscriber, Some(Proxied(id, Awaiting(p))),
                             Some(end), 0);
      && log.Some?
      && (log.value.result == LogProxied <==> After(s, steps).requests.outcomes[p] == [Answered])
      && (log.value.result == LogProxied ==> exists i :: 0 <= i < |steps| && Answers(After(s, steps[..i]), steps[i], p))
      && (log.value.result != LogProxied ==> log.value.status == 502 && log.value.deliveredCount == 0)
  {
    hide Inv, Runs, After, Answers, BodyBytes, LogKindOf;
    if After(s, steps).requests.outcomes[p] == [Answered] {
      AnswerCameFromClient(s, steps, p);
    }
  }

  /** A request is logged as accepted exactly if it is fanned out, and with an error exactly if it is rejected. */
  lemma LoggedResultMeans(request: Request, around: Surroundings, requestId: string, route: Option<PublicRoute>,
                          verdict: Verdict,
                          proxied: Option<ProxyResult>, end: Option<ProxyEnd>, count: nat)
    requires !verdict.Unseen? && (verdict.NoRoute? <==> route.None?) && (verdict.ToSubscriber? <==> proxied.Some?)
    ensures var log := LogOf(request, around, requestId, route, verdict, proxied, end, count);
      && (log.None? <==> proxied.Some? && proxied.value.Proxied? && end.None?)
      && (log.Some? ==>
            && (log.value.result == LogAccepted <==> verdict.ToAll?)
            && (log.value.result == LogProxied <==> proxied.Some? && proxied.value.Proxied? && end.value.Responded?)
            && (log.value.error.None? <==> log.value.result != LogRejected)
            && (log.value.deliveredCount > 0 ==> log.value.result != LogRejected))
  {
    hide KindWithoutBody, BodyBytes;
  }

  /** The body or its declared length is over 768 KiB. */
  ghost predicate IsOversized(request: Request) {
    var declared := IngressBody.DeclaredLength(request.contentLength);
    || (declared.Some? && declared.value > 786_432)
    || (request.stream.Some? && |IngressBody.Concat(request.stream.value)| > 786_432)
  }

  /** In which order a request is judged: its path, its route, its size, and then its class. */
  lemma VerdictMeans(request: Request, around: Surroundings, route: Option<Resolved>)
    ensures var v := VerdictOf(request, around, route);
      var unseen := around.isProbe(request.path) || exists k: nat :: k <= 4 && IngressUrls.DotDotAt(request.path, k);
      && (v.Unseen? <==> unseen)
      && (v.NoRoute? <==> !unseen && route.None?)
      && (v.TooLarge? <==> !unseen && route.Some? && IsOversized(request))
      && (!unseen && route.Some? && !IsOversized(request) ==>
            && Body(request)
                 == Some(if request.stream.Some? then IngressBody.Concat(request.stream.value) else [])
            && var delivery := ClassOf(request, around, route.value.routeId, route.value.remainingPath,
                                       Body(request).value);
               && (v.ToSubscriber? <==> delivery == OAuth) && (v.ToAll? <==> delivery == Fanout)
               && (v.Rejected? ==> v.why == delivery))
  {
    hide Classify, IngressUrls.DotDotAt, IngressBody.DeclaredLength;
    if request.stream.Some? {
      IngressBody.TotalIsLength(request.stream.value);
    }
  }

  /** A field of a callback is the query's if it has one, even an empty one, and else the form's. */
  lemma QueryComesFirst(request: Request, around: Surroundings, body: seq<Byte>)
    ensures var params, form := ParamsOf(request, around, body), around.formOf(body);
      && params.state == (if request.query.state == None then form.state else request.query.state)
      && params.code == (if request.query.code == None then form.code else request.query.code)
      && params.error == (if request.query.error == None then form.error else request.query.error)
      && GivenState(params) == if params.state == Some("") then None else params.state
  {
  }

  /** How each branch answers: the status of the response, and the error that it and the event name. */
  ghost predicate AnswersWith(status: int, error: Option<string>, verdict: Verdict, proxied: Option<ProxyResult>,
                              end: Option<ProxyEnd>) {
    match error
    case None =>
      || (verdict.ToAll? && status == 202)
      || (verdict.ToSubscriber? && proxied.Some? && proxied.value.Proxied? && end.Some? && end.value.Responded?
          && status == end.value.status)
    case Some(name) =>
      || (name == "route_not_found" && status == 404 && (verdict.NoRoute? || proxied == Some(RouteNotFound)))
      || (name == "request_too_large" && status == 413 && (verdict.TooLarge? || proxied == Some(RequestTooLarge)))
      || (name == "oauth_callback_not_registered" && status == 404
          && verdict == Verdict.Rejected(CallbackNotRegistered))
      || (name == "oauth_callback_incomplete" && status == 404 && verdict == Verdict.Rejected(CallbackIncomplete))
      || (name == "oauth_method_not_allowed" && status == 405 && verdict == Verdict.Rejected(MethodNotAllowed))
      || (name == "oauth_unroutable" && status == 409 && proxied == Some(Unroutable))
      || (name == "oauth_subscriber_not_found" && status == 404 && proxied == Some(OAuthSubscriberNotFound))
      || (name == "subscriber_unreachable" && status == 502 && end == Some(Unreachable))
  }

  /** The rest of the event, apart from its result, status and error. */
  ghost predicate Identifies(e: InboundEvent, request: Request, requestId: string, route: Option<PublicRoute>) {
    && e.id == requestId && e.method_ == request.method_ && e.search == request.search
    && match route
       case None => e.routeId == None && e.remainingPath == (if request.path == "" then "/" else request.path)
                    && e.subscriberCount == 0
       case Some(r) => e.routeId == Some(r.routeId) && e.remainingPath == r.remainingPath
                       && e.subscriberCount == |r.subscribers|
  }

  /** The size that the event shows: of the body if it was read, and else what is known of it. */
  ghost predicate Measures(bytes: int, request: Request, verdict: Verdict) {
    var declared := IngressBody.DeclaredLength(request.contentLength);
    if verdict.NoRoute? then
      bytes == if declared.None? then 0 else if declared.value > 1_000_000_000 then 1_000_000_000 else declared.value
    else if !IsOversized(request) then
      bytes == if request.stream.Some? then |IngressBody.Concat(request.stream.value)| else 0
    else if declared.Some? && declared.value > 786_432 then bytes == declared.value
    else request.stream.Some? && IngressBody.FirstOver(request.stream.value, 786_432, bytes)
  }

  /**
   Every field of the event recorded for a request: which branch its status and error name, which request
   and route it identifies, how large the body was, and of which kind the request looked.
   */
  lemma LogMeans(request: Request, around: Surroundings, requestId: string, route: Option<PublicRoute>,
                 verdict: Verdict, proxied: Option<ProxyResult>, end: Option<ProxyEnd>, count: nat)
    requires !verdict.Unseen? && (verdict.NoRoute? <==> route.None?) && (verdict.ToSubscriber? <==> proxied.Some?)
    requires verdict.Rejected? ==> verdict.why != OAuth && verdict.why != Fanout
    ensures var log := LogOf(request, around, requestId, route, verdict, proxied, end, count);
      log.Some? ==>
        var e := log.value;
        && AnswersWith(e.status, e.error, verdict, proxied, end)
        && Identifies(e, request, requestId, route)
        && Measures(e.bodyBytes, request, verdict)
        && e.deliveredCount == (if verdict.ToAll? then count else if e.result == LogProxied then 1 else 0)
        && (e.kind == WebhookKind <==>
              || verdict.ToAll?
              || (verdict.NoRoute? && Classify(e.remainingPath, request.query, Some(request.method_), []) == Fanout)
              || (verdict.TooLarge?
                  && Classify(e.remainingPath, request.query, Some(request.method_),
                              around.allowedPaths(route.value.routeId)) == Fanout))
  {
    BytesAreMeasured(request, verdict);
    hide Classify, BodyBytes, Measures;
  }

  lemma BytesAreMeasured(request: Request, verdict: Verdict)
    ensures Measures(BodyBytes(request, verdict), request, verdict)
  {
    hide IngressBody.DeclaredLength, IngressBody.Total, IngressBody.Concat, IngressBody.FirstTotalOver;
    if request.stream.Some? {
      IngressBody.TotalIsLength(request.stream.value);
      if IngressBody.Total(request.stream.value) > IngressBody.TUNNEL_MAX_BODY_BYTES {
        IngressBody.FirstTotalIsFirstOver(request.stream.value, IngressBody.TUNNEL_MAX_BODY_BYTES);
      }
    }
  }

  function GivenState(params: CallbackParams): Option<string> {
    if IsGiven(params.state) then params.state else None
  }

  function SignedState(around: Surroundings, params: CallbackParams): Option<Signed> {
    if IsGiven(params.state) then around.verified(params.state.value) else None
  }

  /** The handlers that a verdict calls on the route's object, and what comes of them. */
  ghost predicate Performs(s: State, work: seq<Step>, answer: Answer, targets: seq<string>, around: Surroundings,
                           route: PublicRoute,
                           params: CallbackParams, requestId: string, broken: set<string>, now: int, later: int) {
    match answer.verdict
    case ToSubscriber =>
      && |work| == 1 && work[0].ProxyOAuth? && targets == []
      && work[0]
           == Step.ProxyOAuth(now, GivenState(params), SignedState(around, params), requestId, false, broken,
                              work[0].order)
      && var p := Purge(s, now, work[0].order);
         answer.proxied == Some(ProxyAnswer(p, OAuthTarget(p, GivenState(params), SignedState(around, params), now),
                                            false))
    case ToAll =>
      && |work| == 2 && work[0].CountFanout? && work[0].now == now
      && work[1].FanOut?
      && work[1]
           == Step.FanOut(later, route.remainingPath, around.settings(route.routeId), targets, requestId, false,
                          broken, work[1].order)
      && answer.log.Some? && answer.proxied.None?
      && answer.log.value.deliveredCount
           == |FanoutTargets(Next(s, work[0]), route.remainingPath, around.settings(route.routeId))|
      && (later == now ==> answer.log.value.deliveredCount == |targets|)
    case _ => work == [] && targets == [] && answer.proxied.None?
  }

  function Counted(answer: Answer): nat {
    if answer.log.Some? then answer.log.value.deliveredCount else 0
  }

  /**
   Handle one request: its route is looked up at `now`, its body is there at `readAt`, and the fan-out of
   a webhook runs in the background at `later`. Everything that happens to the two objects is the
   questions `asked` of them, and then `work` on the route found.
   */
  method HandlePublicIngress(request: Request, around: Surroundings, index: RouterIndex,
                             named: RouteDurableObject, root: RouteDurableObject,
                             requestId: string, broken: set<string>, now: int, readAt: int, later: int)
    returns (answer: Answer, targets: seq<string>, ghost found: Option<PublicRoute>,
             ghost asked: (seq<Step>, seq<Step>), ghost work: seq<Step>)
    requires named.index == index && root.index == index && root.name == "" && named != root
    requires NamedRoute(request.path).Some? ==> named.name == NamedRoute(request.path).value
    requires Inv(named.St()) && Inv(root.St()) && named.clock <= now && root.clock <= now && now <= readAt <= later
    modifies named, root
    ensures Inv(named.St()) && Inv(root.St())
    ensures var lookup := Lookup(request.path, old(NamedRows(request.path, named.St(), now)),
                                 old(ActiveRows(root.St(), now)));
      answer.verdict == VerdictOf(request, around, lookup) && (!answer.verdict.Unseen? ==> Shows(found, lookup))
    ensures answer.verdict.Unseen? ==> found.None? && asked == ([], [])
    ensures answer.log
         == LogOf(request, around, requestId, found, answer.verdict, answer.proxied, None, Counted(answer))
    ensures AsksOnce(asked.0, now) && AsksOnce(asked.1, now)
    ensures Ran(old(named.St()), if found.Some? && found.value.routeId != "" then asked.0 + work else asked.0,
                named.St())
    ensures Ran(old(root.St()), if found.Some? && found.value.routeId == "" then asked.1 + work else asked.1, root.St())
    ensures found.None? ==> work == [] && targets == [] && answer.proxied.None?
    ensures found.Some? ==>
      var s := if found.value.routeId == "" then After(old(root.St()), asked.1) else After(old(named.St()), asked.0);
      Performs(s, work, answer, targets, around, found.value,
               if Body(request).Some? then ParamsOf(request, around, Body(request).value)
                   else request.query, requestId, broken, readAt, later)
  {
    hide Inv, ActiveRows, Lists, IngressUrls.DotDotWithin, VerdictOn, Performs, LogOf, Runs, After, ParamsOf, Body,
         KindWithoutBody, DeclaredBytes;
    targets, work, asked, found := [], [], ([], []), None;
    RanNothing(named.St());
    RanNothing(root.St());
    UnseenLog(request, around, requestId);
    NotFoundLog(request, around, requestId);
    var dirty := IngressUrls.PublicPathHasDotDotSegment(request.path);
    if around.isProbe(request.path) || dirty {
      answer := Answer(Unseen, None, None);
      return;
    }
    var route, a := ResolvePublicRoute(request.path, index, named, root, now);
    asked, found := a, route;
    ghost var s, t := named.St(), root.St();
    if route.None? {
      var path := if request.path == "" then "/" else request.path;
      var event := InboundEvent(requestId, request.method_, None, path, request.search,
                                KindWithoutBody(request, path, []), LogRejected, 404, Some("route_not_found"), 0, 0,
                                DeclaredBytes(request));
      answer := Answer(NoRoute, Some(event), None);
      return;
    }
    IngressUrls.StrippingKeepsPathsClean(request.path, route.value.routeId, IngressUrls.MAX_DECODE_ROUNDS);
    var stillDirty := IngressUrls.PublicPathHasDotDotSegment(route.value.remainingPath);
    if stillDirty {
      assert false;
    }
    var target := if route.value.routeId == "" then root else named;
    answer, targets, work := ReadAndDispatch(request, around, route.value, target, requestId, broken, readAt, later);
    RanThenOn(old(named.St()), asked.0, s, work, named.St());
    RanThenOn(old(root.St()), asked.1, t, work, root.St());
  }

  lemma UnseenLog(request: Request, around: Surroundings, requestId: string)
    ensures LogOf(request, around, requestId, None, Unseen, None, None, 0) == None
  {
  }

  lemma NotFoundLog(request: Request, around: Surroundings, requestId: string)
    ensures var path := if request.path == "" then "/" else request.path;
      LogOf(request, around, requestId, None, NoRoute, None, None, 0) ==
        Some(InboundEvent(requestId, request.method_, None, path, request.search, KindWithoutBody(request, path, []),
                          LogRejected, 404, Some("route_not_found"), 0, 0, DeclaredBytes(request)))
  {
    hide KindWithoutBody, DeclaredBytes;
  }

  lemma RanThenOn(s: State, first: seq<Step>, t: State, second: seq<Step>, u: State)
    requires Ran(s, first, t)
    ensures After(s, first) == t
    ensures Ran(t, second, u) ==> Ran(s, first + second, u)
  {
    if Ran(t, second, u) {
      RanThen(s, first, t, second, u);
    }
  }

  /** The branches for a request that has found its route. */
  method ReadAndDispatch(request: Request, around: Surroundings, route: PublicRoute, target: RouteDurableObject,
                         requestId: string, broken: set<string>, now: int, later: int)
    returns (answer: Answer, targets: seq<string>, ghost work: seq<Step>)
    requires Inv(target.St()) && target.clock <= now <= later
    modifies target
    ensures Inv(target.St()) && Ran(old(target.St()), work, target.St())
    ensures answer.verdict == VerdictOn(request, around, route.routeId, route.remainingPath)
    ensures answer.log
         == LogOf(request, around, requestId, Some(route), answer.verdict, answer.proxied, None, Counted(answer))
    ensures Performs(old(target.St()), work, answer, targets, around, route,
                     if Body(request).Some? then ParamsOf(request, around, Body(request).value)
                         else request.query, requestId, broken, now, later)
  {
    hide Inv, ClassOf, IngressBody.StopsAfter, Runs, After, ParamsOf, KindWithoutBody;
    var body, rejection, held := IngressBody.ReadCapped(request.contentLength, request.stream);
    if body.None? {
      OversizeIs(request, rejection, held);
      var webhook := KindWithoutBody(request, route.remainingPath, around.allowedPaths(route.routeId));
      var event := InboundEvent(requestId, request.method_, Some(route.routeId), route.remainingPath, request.search,
                                webhook, LogRejected, 413, Some("request_too_large"), |route.subscribers|, 0,
                                rejection.bodyBytes);
      answer, targets, work := Answer(TooLarge, Some(event), None), [], [];
      RanNothing(target.St());
      return;
    }
    assert Body(request) == Some(body.value[..]);
    answer, targets, work := Dispatch(request, around, route, body.value[..], target, requestId, broken, now, later);
  }

  lemma OversizeIs(request: Request, rejection: IngressBody.Rejection, held: seq<seq<Byte>>)
    requires var declared, cap := IngressBody.DeclaredLength(request.contentLength), IngressBody.TUNNEL_MAX_BODY_BYTES;
      if declared.Some? && declared.value > cap then rejection.bodyBytes == declared.value
      else request.stream.Some? && IngressBody.StopsAfter(request.stream.value, held, cap, rejection.bodyBytes)
    ensures Body(request).None? && OversizedBytes(request) == rejection.bodyBytes
  {
    hide IngressBody.DeclaredLength, IngressBody.StopsAfter, IngressBody.Total, IngressBody.Concat;
    if request.stream.Some? && IngressBody.StopsAfter(request.stream.value, held, IngressBody.TUNNEL_MAX_BODY_BYTES,
                                                      rejection.bodyBytes) {
      IngressBody.StopIsFirstTotalOver(request.stream.value, held, IngressBody.TUNNEL_MAX_BODY_BYTES,
                                       rejection.bodyBytes);
    }
  }

  /** The branches for a request whose body has been read. */
  method Dispatch(request: Request, around: Surroundings, route: PublicRoute, body: seq<Byte>,
                  target: RouteDurableObject,
                  requestId: string, broken: set<string>, now: int, later: int)
    returns (answer: Answer, targets: seq<string>, ghost work: seq<Step>)
    requires Inv(target.St()) && target.clock <= now <= later && Body(request) == Some(body)
    modifies target
    ensures Inv(target.St()) && Ran(old(target.St()), work, target.St())
    ensures answer.verdict == VerdictFor(ClassOf(request, around, route.routeId, route.remainingPath, body))
    ensures answer.log
         == LogOf(request, around, requestId, Some(route), answer.verdict, answer.proxied, None, Counted(answer))
    ensures Performs(old(target.St()), work, answer, targets, around, route, ParamsOf(request, around, body),
                     requestId, broken, now, later)
  {
    hide Inv, Classify, FanoutTargets, Next, Enabled, Runs, After, ParamsOf, Purge, OAuthTarget, ProxyAnswer, Body;
    targets, work := [], [];
    ghost var s := target.St();
    var params := ParamsOf(request, around, body);
    var delivery := ClassOf(request, around, route.routeId, route.remainingPath, body);
    var event := InboundEvent(requestId, request.method_, Some(route.routeId), route.remainingPath, request.search,
                              OAuthKind,
                              LogRejected, 404, None, |route.subscribers|, 0, |body|);
    if delivery == CallbackNotRegistered {
      answer := Answer(Verdict.Rejected(delivery), Some(event.(error := Some("oauth_callback_not_registered"))), None);
      RanNothing(s);
    } else if delivery == CallbackIncomplete {
      answer := Answer(Verdict.Rejected(delivery), Some(event.(error := Some("oauth_callback_incomplete"))), None);
      RanNothing(s);
    } else if delivery == MethodNotAllowed {
      answer := Answer(Verdict.Rejected(delivery),
                       Some(event.(status := 405, error := Some("oauth_method_not_allowed"))), None);
      RanNothing(s);
    } else if delivery == OAuth {
      var result, order := target.ProxyOAuth(now, GivenState(params), SignedState(around, params), requestId, false,
                                             broken);
      var c := ConcludeProxy(result, None);
      answer := Answer(ToSubscriber,
                       if c.None? then None else Some(event.(status := c.value.status, error := c.value.error)),
                       Some(result));
      work := [Step.ProxyOAuth(now, GivenState(params), SignedState(around, params), requestId, false, broken, order)];
      RanOne(s, work[0]);
    } else {
      var delivered, sent, w := CountThenFanOut(target, route.remainingPath, around.settings(route.routeId), requestId,
                                                broken, now, later);
      answer := Answer(ToAll,
                       Some(event.(kind := WebhookKind, result := LogAccepted, status := 202,
                                   deliveredCount := delivered)), None);
      targets, work := sent, w;
    }
  }

  /** Record a proxied callback once its delivery has ended, whatever else the object did meanwhile. */
  method RecordProxied(request: Request, around: Surroundings, requestId: string, route: PublicRoute, answer: Answer,
                       target: RouteDurableObject, end: ProxyEnd)
    returns (event: InboundEvent)
    requires answer.verdict.ToSubscriber? && answer.proxied.Some? && answer.proxied.value.Proxied?
    requires Body(request).Some?
    requires EndsAs(target.St(), answer.proxied.value.delivery, end)
    ensures Some(event) == LogOf(request, around, requestId, Some(route), answer.verdict, answer.proxied, Some(end), 0)
    ensures answer.proxied.value.delivery.Awaiting? ==>
      (event.result == LogProxied <==> target.outcomes[answer.proxied.value.delivery.promise] == [Answered])
  {
    var result, status, error, delivered := LogProxied, 0, None, 1;
    match end {
      case Responded(code) =>
        status := code;
      case Unreachable =>
        result, status, error, delivered := LogRejected, 502, Some("subscriber_unreachable"), 0;
    }
    event := InboundEvent(requestId, request.method_, Some(route.routeId), route.remainingPath, request.search,
                          OAuthKind,
                          result, status, error, |route.subscribers|, delivered, |Body(request).value|);
  }

  lemma CountedTargets(s: State, now: int, order: seq<string>, path: string, settings: WebhookPathFilter.Settings)
    ensures FanoutTargets(Next(s, Step.CountFanout(now, order)), path, settings)
         == FanoutTargets(Purge(s, now, order), path, settings)
  {
    hide Purge;
  }

  /** Count the deliveries for the log, then deliver; with no time in between, the count is exact. */
  method CountThenFanOut(route: RouteDurableObject, path: string, settings: WebhookPathFilter.Settings,
                         requestId: string, broken: set<string>, now: int, later: int)
    returns (delivered: nat, targets: seq<string>, ghost work: seq<Step>)
    requires Inv(route.St()) && route.clock <= now <= later
    modifies route
    ensures Inv(route.St()) && Ran(old(route.St()), work, route.St())
    ensures |work| == 2 && work[0].CountFanout? && work[0].now == now && work[1].FanOut?
    ensures work[1] == Step.FanOut(later, path, settings, targets, requestId, false, broken, work[1].order)
    ensures delivered == |FanoutTargets(Next(old(route.St()), work[0]), path, settings)|
    ensures later == now ==> delivered == |targets|
  {
    hide Inv, InvAt, Purge, FanoutTargets, IsFanoutList, Runs, After, Enabled, Next;
    ghost var s := route.St();
    var n, order := route.CountWebhookFanoutDeliveries(now, path, settings);
    CountClock(s, now, order);
    ghost var c := route.St();
    var sent, order2 := route.FanOut(later, path, settings, requestId, false, broken);
    delivered, targets := n, sent;
    ghost var count := Step.CountFanout(now, order);
    ghost var fanOut := Step.FanOut(later, path, settings, sent, requestId, false, broken, order2);
    work := [count] + [fanOut];
    RanOne(s, count);
    RanOne(c, fanOut);
    RanThen(s, [count], c, [fanOut], route.St());
    if later == now {
      CountIsFanoutSize(s, count, fanOut);
      CountedTargets(s, now, order, path, settings);
    }
  }

  lemma CountClock(s: State, now: int, order: seq<string>)
    ensures Next(s, Step.CountFanout(now, order)).clock == now
  {
  }
}
