/** Signed OAuth states and the classification of public deliveries (src/oauth-state.ts). */
module OAuthState {
  import opened Wrappers
  import opened Text
  import opened Base64
  import opened WebhookFilterPath
  import RouteState

  const OAUTH_STATE_PREFIX := "dr1."
  const OAUTH_STATE_TTL_MS := 15 * 60 * 1000

  // ---- signed states -----------------------------------------------------------------

  /** The payload of a signed state; `d` is there only for a non-empty inner state. */
  datatype Payload = Payload(sub: string, route: string, exp: int, d: Option<string>)

  /** Parsed JSON, as far as it is looked at: None for a member that is missing or of another type. */
  datatype Claims = Claims(v: Option<int>, sub: Option<string>, route: string, exp: Option<int>, d: Option<string>)

  /** Version 1, a subscriber, and an expiry that is not past: the payload as it was read. */
  predicate Vouches(claims: Option<Claims>, now: int, p: Payload) {
    && claims.Some? && claims.value.v == Some(1) && claims.value.sub == Some(p.sub)
    && claims.value.exp == Some(p.exp) && now <= p.exp
    && claims.value.route == p.route && claims.value.d == p.d
  }

  /** What is not modelled: the MAC, and JSON text in UTF-8. */
  datatype Codec = Codec(mac: (string, string) -> string, write: Payload -> seq<Byte>,
                         read: seq<Byte> -> Option<Claims>)

  function ClaimsOf(p: Payload): Claims {
    Claims(Some(1), Some(p.sub), p.route, Some(p.exp), p.d)
  }

  /** MACs are base64url, JSON round-trips, and no payload is written as nothing at all. */
  ghost predicate Sound(c: Codec) {
    && (forall secret, text :: '.' !in c.mac(secret, text))
    && (forall p :: c.read(c.write(p)) == Some(ClaimsOf(p)) && c.write(p) != [])
  }

  /** `wrapOAuthState`; None where it throws. */
  function Wrap(c: Codec, secret: string, subscriberId: string, routeId: string, inner: Option<string>,
                now: int): Option<string> {
    if subscriberId == "" then None
    else
      var encoded := EncodeUrl(c.write(MintedPayload(subscriberId, routeId, inner, now)));
      Some(OAUTH_STATE_PREFIX + encoded + "." + c.mac(secret, encoded))
  }

  function MintedPayload(subscriberId: string, routeId: string, inner: Option<string>, now: int): Payload {
    Payload(subscriberId, routeId, now + OAUTH_STATE_TTL_MS, if inner == Some("") then None else inner)
  }

  /** `lastIndexOf`, or -1. */
  function LastIndexOf(text: string, c: char): (i: int)
    ensures -1 <= i < |text|
    ensures i >= 0 ==> text[i] == c
    ensures forall j :: i < j < |text| ==> text[j] != c
  {
    if text == "" then -1
    else if text[|text| - 1] == c then |text| - 1
    else LastIndexOf(text[..|text| - 1], c)
  }

  function Checked(claims: Option<Claims>, now: int): Option<Payload> {
    if claims.None? || claims.value.v != Some(1) || claims.value.sub.None? || claims.value.exp.None? then None
    else if claims.value.exp.value < now then None
    else Some(Payload(claims.value.sub.value, claims.value.route, claims.value.exp.value, claims.value.d))
  }

  /** `unwrapOAuthState`. */
  function Unwrap(c: Codec, secret: string, state: string, now: int): Option<Payload> {
    if !StartsWith(state, OAUTH_STATE_PREFIX) then None
    else
      var rest := state[|OAUTH_STATE_PREFIX|..];
      var split := LastIndexOf(rest, '.');
      if split <= 0 then None
      else
        var encoded, mac := rest[..split], rest[split + 1..];
        if mac != c.mac(secret, encoded) then None else Checked(c.read(Decode(encoded)), now)
  }

  /** `unwrapOAuthStateForRoute`: the operator's secret, then the route's. */
  function UnwrapForRoute(c: Codec, operatorSecret: string, routeSecret: string, state: string,
                          now: int): Option<Payload> {
    var primary := Unwrap(c, operatorSecret, state, now);
    if primary.Some? then primary else Unwrap(c, routeSecret, state, now)
  }

  /** A state in the signed form: prefix, encoded payload, dot, MAC. */
  function SignedForm(encoded: string, mac: string): string {
    OAUTH_STATE_PREFIX + encoded + "." + mac
  }

  lemma {:induction false} LastDot(encoded: string, mac: string)
    requires '.' !in mac
    ensures LastIndexOf(encoded + "." + mac, '.') == |encoded|
  {
    var text := encoded + "." + mac;
    assert text[|encoded|] == '.';
    forall j | |encoded| < j < |text| ensures text[j] != '.' {
      assert text[j] == mac[j - |encoded| - 1];
    }
  }

  /** How a text in the signed form is judged. */
  lemma UnwrapSignedForm(c: Codec, secret: string, encoded: string, mac: string, now: int)
    requires '.' !in mac
    ensures Unwrap(c, secret, SignedForm(encoded, mac), now) ==
      if encoded == "" || mac != c.mac(secret, encoded) then None else Checked(c.read(Decode(encoded)), now)
  {
    var state := SignedForm(encoded, mac);
    var rest := state[|OAUTH_STATE_PREFIX|..];
    assert rest == encoded + "." + mac;
    assert StartsWith(state, OAUTH_STATE_PREFIX) by {
      assert state[..4] == OAUTH_STATE_PREFIX;
    }
    LastDot(encoded, mac);
    assert rest[..|encoded|] == encoded;
    assert rest[|encoded| + 1..] == mac;
  }

  /**
   A state is accepted exactly when it is the signed form of some non-empty text, under the secret's own
   MAC of that text, and the text decodes to a version 1 payload with a subscriber and an expiry not yet past.
   */
  lemma UnwrapAcceptsIff(c: Codec, secret: string, state: string, now: int, p: Payload)
    requires Sound(c)
    ensures Unwrap(c, secret, state, now) == Some(p) <==>
      exists encoded: string ::
        && encoded != "" && state == "dr1." + encoded + "." + c.mac(secret, encoded)
        && Vouches(c.read(Decode(encoded)), now, p)
  {
    if Unwrap(c, secret, state, now) == Some(p) {
      var rest := state[|OAUTH_STATE_PREFIX|..];
      var split := LastIndexOf(rest, '.');
      var encoded := rest[..split];
      assert rest == encoded + "." + rest[split + 1..];
      assert state == OAUTH_STATE_PREFIX + rest;
      assert state == SignedForm(encoded, c.mac(secret, encoded));
    }
    if encoded: string :| encoded != "" && state == SignedForm(encoded, c.mac(secret, encoded))
                          && Checked(c.read(Decode(encoded)), now) == Some(p) {
      UnwrapSignedForm(c, secret, encoded, c.mac(secret, encoded), now);
    }
  }

  /**
   Any secret with the same MAC of the text, and no other, unwraps the state: in full until its expiry,
   not at all after.
   */
  lemma UnwrapWrapped(c: Codec, minted: string, presented: string, subscriberId: string, routeId: string,
                      inner: Option<string>, at: int, now: int)
    requires Sound(c) && subscriberId != ""
    ensures var p := MintedPayload(subscriberId, routeId, inner, at);
      var encoded := EncodeUrl(c.write(p));
      Unwrap(c, presented, Wrap(c, minted, subscriberId, routeId, inner, at).value, now)
        == if c.mac(minted, encoded) == c.mac(presented, encoded) && now <= p.exp then Some(p) else None
  {
    var p := MintedPayload(subscriberId, routeId, inner, at);
    var encoded := EncodeUrl(c.write(p));
    UrlRoundTrip(c.write(p));
    UnwrapSignedForm(c, presented, encoded, c.mac(minted, encoded), now);
    assert Wrap(c, minted, subscriberId, routeId, inner, at).value == SignedForm(encoded, c.mac(minted, encoded));
  }

  /** Signed with either secret, the state gives back its payload at every time up to its expiry, and nothing after. */
  lemma SignedStateRoundTrip(c: Codec, operatorSecret: string, routeSecret: string, byRoute: bool,
                             subscriberId: string, routeId: string, inner: Option<string>, at: int, now: int)
    requires Sound(c) && subscriberId != ""
    ensures var p := Payload(subscriberId, routeId, at + 900_000, if inner == Some("") then None else inner);
      var state := Wrap(c, if byRoute then routeSecret else operatorSecret, subscriberId, routeId, inner, at).value;
      UnwrapForRoute(c, operatorSecret, routeSecret, state, now)
        == if now <= at + 900_000 then Some(p) else None
  {
    var minted := if byRoute then routeSecret else operatorSecret;
    UnwrapWrapped(c, minted, operatorSecret, subscriberId, routeId, inner, at, now);
    UnwrapWrapped(c, minted, routeSecret, subscriberId, routeId, inner, at, now);
    hide Wrap, Unwrap, EncodeUrl;
  }

  // ---- signed states and the route object ------------------------------------------------

  /** What the route object reads of a verified state. */
  function Verified(p: Option<Payload>): Option<RouteState.Signed> {
    if p.None? then None else Some(RouteState.Signed(p.value.sub, p.value.route))
  }

  /**
   A callback carrying a state minted for a subscriber of this route, and not yet expired, goes to that
   subscriber if it is deliverable and to nobody otherwise, whatever is bound and whoever else is there.
   */
  lemma SignedStateReachesItsSubscriber(c: Codec, s: RouteState.State, operatorSecret: string, routeSecret: string,
                                        byRoute: bool,
                                        subscriberId: string, routeId: string, inner: Option<string>, at: int, now: int)
    requires Sound(c) && subscriberId != "" && now <= at + OAUTH_STATE_TTL_MS
    requires s.routeId == Some(routeId)
    ensures var state := Wrap(c, if byRoute then routeSecret else operatorSecret, subscriberId, routeId, inner,
                              at).value;
      RouteState.OAuthTarget(s, Some(state), Verified(UnwrapForRoute(c, operatorSecret, routeSecret, state, now)), now)
        == if subscriberId in RouteState.Deliverable(s) then Some(subscriberId) else None
  {
    SignedStateRoundTrip(c, operatorSecret, routeSecret, byRoute, subscriberId, routeId, inner, at, now);
    var state := Wrap(c, if byRoute then routeSecret else operatorSecret, subscriberId, routeId, inner, at).value;
    assert state[0] == 'd';
    hide Wrap, UnwrapForRoute, RouteState.Deliverable;
  }

  /** A state minted for another route goes to nobody here, even if it verifies. */
  lemma ForeignStateGoesNowhere(c: Codec, s: RouteState.State, operatorSecret: string, routeSecret: string,
                                subscriberId: string, routeId: string, inner: Option<string>, at: int, now: int)
    requires Sound(c) && subscriberId != "" && now <= at + OAUTH_STATE_TTL_MS
    requires s.routeId.Some? && s.routeId != Some(routeId)
    ensures var state := Wrap(c, operatorSecret, subscriberId, routeId, inner, at).value;
      RouteState.OAuthTarget(s, Some(state), Verified(UnwrapForRoute(c, operatorSecret, routeSecret, state, now)), now)
        == None
  {
    SignedStateRoundTrip(c, operatorSecret, routeSecret, false, subscriberId, routeId, inner, at, now);
    var state := Wrap(c, operatorSecret, subscriberId, routeId, inner, at).value;
    assert state[0] == 'd';
    hide Wrap, UnwrapForRoute, RouteState.Deliverable;
  }

  // ---- delivery classes --------------------------------------------------------------------

  datatype DeliveryClass = OAuth | Fanout | CallbackIncomplete | CallbackNotRegistered | MethodNotAllowed

  /** One parameter of a callback: the query's if there is one, even if empty, and else the form's. */
  function Param(query: Option<string>, form: Option<string>): Option<string> {
    if query.Some? then query else form
  }

  datatype CallbackParams = CallbackParams(state: Option<string>, code: Option<string>, error: Option<string>)

  predicate IsGiven(value: Option<string>) {
    value.Some? && value.value != ""
  }

  predicate HasResult(params: CallbackParams) {
    IsGiven(params.code) || IsGiven(params.error)
  }

  function Upper(text: string): (r: string)
    ensures |r| == |text|
  {
    seq(|text|, i requires 0 <= i < |text| =>
      if 'a' <= text[i] <= 'z' then (text[i] as int - 32) as char else text[i])
  }

  predicate IsCallbackMethod(method_: string) {
    Upper(Trim(method_)) == "GET" || Upper(Trim(method_)) == "POST"
  }

  /** `isAllowlistedOAuthCallbackPath`: callback paths are normalised exactly as webhook paths are. */
  predicate IsAllowlisted(path: string, allowed: seq<string>) {
    exists a :: a in allowed && Normalize(a) == Normalize(path)
  }

  predicate HasAt(text: string, i: nat, word: string) {
    i + |word| <= |text| && text[i..i + |word|] == word
  }

  /** `/\/(oauth|auth)\/callback(?:\/|$)/i`, as whole segments of the upper-cased normal form. */
  predicate LooksLikeCallback(path: string) {
    var p := Upper(Normalize(path));
    exists i :: 0 <= i < |p| && (HasAt(p, i, "/OAUTH/CALLBACK/") || HasAt(p, i, "/AUTH/CALLBACK/")
                              || p[i..] == "/OAUTH/CALLBACK" || p[i..] == "/AUTH/CALLBACK")
  }

  // ---- the shape of a callback path -------------------------------------------------------

  /** The same but for the case of ASCII letters. */
  predicate SameLetters(a: char, b: char) {
    || a == b
    || ('a' <= a <= 'z' && b as int == a as int - 32)
    || ('a' <= b <= 'z' && a as int == b as int - 32)
  }

  predicate EqualsIgnoringCase(left: string, right: string) {
    |left| == |right| && forall i :: 0 <= i < |left| ==> SameLetters(left[i], right[i])
  }

  lemma UpperIgnoresCase(left: string, right: string)
    ensures Upper(left) == Upper(right) <==> EqualsIgnoringCase(left, right)
  {
    if Upper(left) == Upper(right) {
      assert |left| == |Upper(left)| == |right|;
      forall i | 0 <= i < |left| ensures SameLetters(left[i], right[i]) {
        assert Upper(left)[i] == Upper(right)[i];
      }
    }
  }

  function UpperParts(parts: seq<string>): (r: seq<string>)
    ensures |r| == |parts| && forall k :: 0 <= k < |parts| ==> r[k] == Upper(parts[k])
  {
    seq(|parts|, k requires 0 <= k < |parts| => Upper(parts[k]))
  }

  /** Upper-casing leaves the segments where they are. */
  lemma {:induction false} SplitUpper(path: string)
    ensures Split(Upper(path), '/') == UpperParts(Split(path, '/'))
  {
    if path != "" {
      SplitUpper(path[1..]);
      assert Upper(path)[1..] == Upper(path[1..]);
      var rest := Split(path[1..], '/');
      if path[0] != '/' {
        assert Upper(path)[0] != '/';
        assert Upper([path[0]] + rest[0]) == [Upper(path)[0]] + Upper(rest[0]);
      }
    }
  }

  /** Two neighbouring whole segments, with a slash before the first. */
  ghost predicate HasPair(parts: seq<string>, first: string, second: string) {
    exists k :: 1 <= k < |parts| - 1 && parts[k] == first && parts[k + 1] == second
  }

  function WordPair(first: string, second: string): string {
    "/" + first + "/" + second
  }

  /** The word pair stands at this index, with a slash or nothing after it. */
  predicate PairAt(p: string, i: nat, first: string, second: string) {
    HasAt(p, i, WordPair(first, second) + "/") || (i <= |p| && p[i..] == WordPair(first, second))
  }

  lemma SplitPair(before: string, first: string, second: string)
    requires '/' !in first && '/' !in second
    ensures Split(before + WordPair(first, second), '/') == Split(before, '/') + [first, second]
  {
    hide Split;
    SplitWhole(first, '/');
    SplitWhole(second, '/');
    SplitAppend(first, second, '/');
    SplitAppend(before, first + ['/'] + second, '/');
    assert before + WordPair(first, second) == before + ['/'] + (first + ['/'] + second);
    assert [first] + [second] == [first, second];
  }

  lemma SplitPairThen(before: string, first: string, second: string, after: string)
    requires '/' !in first && '/' !in second
    ensures Split(before + (WordPair(first, second) + "/") + after, '/')
         == Split(before, '/') + [first, second] + Split(after, '/')
  {
    hide Split;
    SplitPair(before, first, second);
    SplitAppend(before + WordPair(first, second), after, '/');
    assert before + (WordPair(first, second) + "/") + after == before + WordPair(first, second) + ['/'] + after;
  }

  lemma JoinPair(left: seq<string>, first: string, second: string)
    requires left != []
    ensures Join(left + [first, second], '/') == Join(left, '/') + WordPair(first, second)
  {
    JoinAppend(left, [first, second], '/');
    assert Join([first, second], '/') == first + ['/'] + second;
    assert Join(left, '/') + ['/'] + (first + ['/'] + second) == Join(left, '/') + WordPair(first, second);
  }

  lemma WordIsPair(p: string, i: nat, first: string, second: string)
    requires '/' !in first && '/' !in second && PairAt(p, i, first, second)
    ensures HasPair(Split(p, '/'), first, second)
  {
    hide Split;
    var word, before := WordPair(first, second), p[..i];
    var k := |Split(before, '/')|;
    if p[i..] == word {
      assert p == before + word;
      SplitPair(before, first, second);
    } else {
      var after := p[i + |word| + 1..];
      assert p == before + (word + "/") + after;
      SplitPairThen(before, first, second, after);
    }
    var parts := Split(p, '/');
    assert parts[k] == first && parts[k + 1] == second;
  }

  lemma PairIsWord(p: string, first: string, second: string) returns (i: nat)
    requires HasPair(Split(p, '/'), first, second)
    ensures i < |p| && PairAt(p, i, first, second)
  {
    hide Split;
    var parts := Split(p, '/');
    var k :| 1 <= k < |parts| - 1 && parts[k] == first && parts[k + 1] == second;
    JoinSplit(p, '/');
    var left, right := parts[..k], parts[k + 2..];
    var word := WordPair(first, second);
    JoinPair(left, first, second);
    i := |Join(left, '/')|;
    if right == [] {
      assert parts == left + [first, second];
    } else {
      assert parts == left + [first, second] + right;
      JoinAppend(left + [first, second], right, '/');
      assert p == Join(left, '/') + (word + "/") + Join(right, '/');
    }
  }

  /** A word pair between slashes, or after one at the end, is a pair of whole segments. */
  lemma PairOfSegments(p: string, first: string, second: string)
    requires '/' !in first && '/' !in second
    ensures HasPair(Split(p, '/'), first, second) <==> exists i :: 0 <= i < |p| && PairAt(p, i, first, second)
  {
    hide PairAt, HasPair, Split;
    if i :| 0 <= i < |p| && PairAt(p, i, first, second) {
      WordIsPair(p, i, first, second);
    }
    if HasPair(Split(p, '/'), first, second) {
      var i := PairIsWord(p, first, second);
    }
  }

  /** `oauth` or `auth`, then `callback`, as whole neighbouring segments in any case, the first after a slash. */
  ghost predicate HasCallbackSegments(path: string) {
    var parts := Split(Normalize(path), '/');
    exists k :: 1 <= k < |parts| - 1
      && (EqualsIgnoringCase(parts[k], "oauth") || EqualsIgnoringCase(parts[k], "auth"))
      && EqualsIgnoringCase(parts[k + 1], "callback")
  }

  lemma CallbackWords(part: string)
    ensures Upper(part) == "OAUTH" <==> EqualsIgnoringCase(part, "oauth")
    ensures Upper(part) == "AUTH" <==> EqualsIgnoringCase(part, "auth")
    ensures Upper(part) == "CALLBACK" <==> EqualsIgnoringCase(part, "callback")
  {
    assert Upper("oauth") == "OAUTH" && Upper("auth") == "AUTH" && Upper("callback") == "CALLBACK";
    UpperIgnoresCase(part, "oauth");
    UpperIgnoresCase(part, "auth");
    UpperIgnoresCase(part, "callback");
  }

  lemma PairInAnyCase(parts: seq<string>)
    ensures HasPair(UpperParts(parts), "OAUTH", "CALLBACK") || HasPair(UpperParts(parts), "AUTH", "CALLBACK") <==>
      exists k :: 1 <= k < |parts| - 1
        && (EqualsIgnoringCase(parts[k], "oauth") || EqualsIgnoringCase(parts[k], "auth"))
        && EqualsIgnoringCase(parts[k + 1], "callback")
  {
    var upper := UpperParts(parts);
    forall k | 0 <= k < |parts|
      ensures upper[k] == "OAUTH" <==> EqualsIgnoringCase(parts[k], "oauth")
      ensures upper[k] == "AUTH" <==> EqualsIgnoringCase(parts[k], "auth")
      ensures upper[k] == "CALLBACK" <==> EqualsIgnoringCase(parts[k], "callback")
    {
      CallbackWords(parts[k]);
    }
    hide Upper, EqualsIgnoringCase, UpperParts;
  }

  lemma LooksLikePairs(path: string)
    ensures LooksLikeCallback(path) <==>
      var p := Upper(Normalize(path));
      || (exists i :: 0 <= i < |p| && PairAt(p, i, "OAUTH", "CALLBACK"))
      || (exists i :: 0 <= i < |p| && PairAt(p, i, "AUTH", "CALLBACK"))
  {
    hide Upper, Normalize;
    var p := Upper(Normalize(path));
    assert WordPair("OAUTH", "CALLBACK") == "/OAUTH/CALLBACK" && WordPair("AUTH", "CALLBACK") == "/AUTH/CALLBACK";
    assert "/OAUTH/CALLBACK" + "/" == "/OAUTH/CALLBACK/" && "/AUTH/CALLBACK" + "/" == "/AUTH/CALLBACK/";
    forall i | 0 <= i < |p|
      ensures PairAt(p, i, "OAUTH", "CALLBACK") <==> HasAt(p, i, "/OAUTH/CALLBACK/") || p[i..] == "/OAUTH/CALLBACK"
      ensures PairAt(p, i, "AUTH", "CALLBACK") <==> HasAt(p, i, "/AUTH/CALLBACK/") || p[i..] == "/AUTH/CALLBACK"
    {
    }
    hide PairAt, HasAt, WordPair;
  }

  /** The pattern test holds exactly for the paths that have the two segments. */
  lemma LooksLikeCallbackIff(path: string)
    ensures LooksLikeCallback(path) <==> HasCallbackSegments(path)
  {
    var p := Upper(Normalize(path));
    hide Split, Upper, Normalize, HasPair, UpperParts, LooksLikeCallback, EqualsIgnoringCase, PairAt;
    LooksLikePairs(path);
    SplitUpper(Normalize(path));
    PairOfSegments(p, "OAUTH", "CALLBACK");
    PairOfSegments(p, "AUTH", "CALLBACK");
    PairInAnyCase(Split(Normalize(path), '/'));
  }

  predicate CarriesSignedState(params: CallbackParams) {
    params.state.Some? && StartsWith(params.state.value, OAUTH_STATE_PREFIX)
  }

  /** `classifyDelivery`; without a method, any method will do. */
  function Classify(path: string, params: CallbackParams, method_: Option<string>,
                    allowed: seq<string>): DeliveryClass {
    if IsAllowlisted(path, allowed) then
      if !HasResult(params) then CallbackIncomplete
      else if IsGiven(method_) && !IsCallbackMethod(method_.value) then MethodNotAllowed
      else OAuth
    else if LooksLikeCallback(path) || CarriesSignedState(params) then CallbackNotRegistered
    else Fanout
  }

  /** A code or an error that is not empty. */
  predicate BringsResult(params: CallbackParams) {
    (params.code != None && params.code != Some("")) || (params.error != None && params.error != Some(""))
  }

  /** No method is given, or it is GET or POST in any case and padding. */
  predicate MayBeCallback(method_: Option<string>) {
    || method_ == None || method_ == Some("")
    || EqualsIgnoringCase(Trim(method_.value), "get") || EqualsIgnoringCase(Trim(method_.value), "post")
  }

  predicate StartsAsSigned(state: Option<string>) {
    state.Some? && |state.value| >= 4 && state.value[..4] == "dr1."
  }

  lemma CallbackMethodIff(method_: string)
    ensures IsCallbackMethod(method_) <==>
      EqualsIgnoringCase(Trim(method_), "get") || EqualsIgnoringCase(Trim(method_), "post")
  {
    assert Upper("get") == "GET" && Upper("post") == "POST";
    UpperIgnoresCase(Trim(method_), "get");
    UpperIgnoresCase(Trim(method_), "post");
  }

  lemma GivenIff(params: CallbackParams, method_: Option<string>)
    ensures HasResult(params) <==> BringsResult(params)
    ensures CarriesSignedState(params) <==> StartsAsSigned(params.state)
    ensures (IsGiven(method_) ==> IsCallbackMethod(method_.value)) <==> MayBeCallback(method_)
  {
    if method_.Some? {
      CallbackMethodIff(method_.value);
    }
    if StartsAsSigned(params.state) {
      assert params.state.value == params.state.value[..4] + params.state.value[4..];
    }
    hide IsCallbackMethod, EqualsIgnoringCase;
  }

  /**
   What each class says of a request. Only an allowlisted path is ever proxied, and needs a result and a
   fitting method; any other path is fanned out exactly if it has no callback segments and carries no
   state in the signed form.
   */
  lemma ClassifyMeans(path: string, params: CallbackParams, method_: Option<string>, allowed: seq<string>)
    ensures var listed := exists a :: a in allowed && Normalize(a) == Normalize(path);
      var shaped := HasCallbackSegments(path) || StartsAsSigned(params.state);
      match Classify(path, params, method_, allowed)
      case OAuth => listed && BringsResult(params) && MayBeCallback(method_)
      case MethodNotAllowed => listed && BringsResult(params) && !MayBeCallback(method_)
      case CallbackIncomplete => listed && !BringsResult(params)
      case CallbackNotRegistered => !listed && shaped
      case Fanout => !listed && !shaped
  {
    GivenIff(params, method_);
    hide LooksLikeCallback, HasCallbackSegments, Normalize, IsCallbackMethod, HasResult, BringsResult, IsGiven,
         MayBeCallback, CarriesSignedState, StartsAsSigned;
    LooksLikeCallbackIff(path);
  }

  /**
   What allowing more paths can do: it never turns a proxied callback into anything else, and never
   starts a fan-out.
   */
  lemma AllowingMorePaths(path: string, params: CallbackParams, method_: Option<string>, fewer: seq<string>,
                          more: seq<string>)
    requires forall a :: a in fewer ==> a in more
    ensures Classify(path, params, method_, fewer) == OAuth ==> Classify(path, params, method_, more) == OAuth
    ensures Classify(path, params, method_, more) == Fanout ==> Classify(path, params, method_, fewer) == Fanout
  {
    hide Normalize, LooksLikeCallback, HasResult, IsCallbackMethod, CarriesSignedState;
  }

  /** A signed state never fans out: a minted state stays out of every webhook delivery. */
  lemma SignedStateNeverFansOut(c: Codec, secret: string, subscriberId: string, routeId: string, inner: Option<string>,
                                at: int,
                                path: string, code: Option<string>, error: Option<string>, method_: Option<string>,
                                allowed: seq<string>)
    requires subscriberId != ""
    ensures var params := CallbackParams(Wrap(c, secret, subscriberId, routeId, inner, at), code, error);
      && Classify(path, params, method_, allowed) != Fanout
      && (Classify(path, params, method_, allowed) == OAuth ==> IsAllowlisted(path, allowed) && HasResult(params))
  {
    var state := Wrap(c, secret, subscriberId, routeId, inner, at).value;
    assert state[..4] == OAUTH_STATE_PREFIX;
    hide LooksLikeCallback, IsAllowlisted;
  }
}
