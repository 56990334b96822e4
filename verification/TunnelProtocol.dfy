/** The connection secret carried in a WebSocket subprotocol (src/tunnel-protocol.ts). */
module TunnelProtocol {
  import opened Wrappers
  import opened Text
  import opened Base64
  import opened Utf8
  import IngressUrls
  import RouteId

  const TUNNEL_SUBPROTOCOL_PREFIX := "dev-router.v1."

  /** `tunnelSubprotocol`. */
  function TunnelSubprotocol(secret: Utf8.Text): string {
    TUNNEL_SUBPROTOCOL_PREFIX + EncodeUrl(EncodeText(secret))
  }

  /** A token of the header that carries a secret. */
  predicate CarriesSecret(part: string) {
    StartsWith(Trim(part), TUNNEL_SUBPROTOCOL_PREFIX)
  }

  function SecretIn(part: string): Utf8.Text
    requires CarriesSecret(part)
  {
    DecodeText(Decode(Trim(part)[|TUNNEL_SUBPROTOCOL_PREFIX|..]))
  }

  /** The first token that carries a secret decides. */
  function FirstSecret(parts: seq<string>): Option<Utf8.Text> {
    if parts == [] then None
    else if CarriesSecret(parts[0]) then Some(SecretIn(parts[0]))
    else FirstSecret(parts[1..])
  }

  function HeaderSecret(header: Option<string>): Option<Utf8.Text> {
    if header.None? || header.value == "" then None else FirstSecret(Split(header.value, ','))
  }

  method DecodeTunnelSubprotocolSecret(header: Option<string>) returns (secret: Option<Utf8.Text>)
    ensures secret == HeaderSecret(header)
  {
    if header.None? || header.value == "" {
      return None;
    }
    var parts := Split(header.value, ',');
    for i := 0 to |parts|
      invariant FirstSecret(parts) == FirstSecret(parts[i..])
    {
      if CarriesSecret(parts[i]) {
        return Some(SecretIn(parts[i]));
      }
      assert parts[i..][1..] == parts[i + 1..];
    }
    assert parts[|parts|..] == [];
    return None;
  }

  lemma {:induction false} FirstSecretSkips(earlier: seq<string>, rest: seq<string>)
    requires forall i :: 0 <= i < |earlier| ==> !CarriesSecret(earlier[i])
    ensures FirstSecret(earlier + rest) == FirstSecret(rest)
  {
    if earlier == [] {
      assert earlier + rest == rest;
    } else {
      assert (earlier + rest)[1..] == earlier[1..] + rest;
      FirstSecretSkips(earlier[1..], rest);
    }
  }

  predicate IsPadding(text: string) {
    forall i :: 0 <= i < |text| ==> IsSpace(text[i])
  }

  lemma PaddedToken(secret: Utf8.Text, before: string, after: string)
    requires IsPadding(before) && IsPadding(after)
    ensures var part := before + TunnelSubprotocol(secret) + after;
      CarriesSecret(part) && SecretIn(part) == Received(secret) && ',' !in part
  {
    var token := TunnelSubprotocol(secret);
    assert token[0] == 'd' && !IsSpace(token[|token| - 1]);
    TrimPadding(before, token, after);
    assert token[..|TUNNEL_SUBPROTOCOL_PREFIX|] == TUNNEL_SUBPROTOCOL_PREFIX;
    assert token[|TUNNEL_SUBPROTOCOL_PREFIX|..] == EncodeUrl(EncodeText(secret));
    UrlRoundTrip(EncodeText(secret));
    TextRoundTrip(secret);
    NoComma(secret, before, after);
  }

  lemma NoComma(secret: Utf8.Text, before: string, after: string)
    requires IsPadding(before) && IsPadding(after)
    ensures ',' !in before + TunnelSubprotocol(secret) + after
  {
    assert !IsSpace(',');
    forall i | 0 <= i < |TunnelSubprotocol(secret)| ensures TunnelSubprotocol(secret)[i] != ',' {
      if i >= |TUNNEL_SUBPROTOCOL_PREFIX| {
        assert TunnelSubprotocol(secret)[i] == EncodeUrl(EncodeText(secret))[i - |TUNNEL_SUBPROTOCOL_PREFIX|];
      }
    }
  }

  lemma OnlyEmptyPart(parts: seq<string>)
    requires parts != [] && parts == Split("", ',')
    ensures forall part :: part in parts ==> !CarriesSecret(part)
  {
    assert Split("", ',') == [""];
    assert Trim("") == "";
  }

  /**
   What the receiver makes of a secret: lone surrogates are replaced and a byte order mark at the start
   is dropped.
   */
  function Received(secret: Utf8.Text): Utf8.Text {
    WithoutMark(Scalars(secret))
  }

  /**
   The secret is received from any comma-separated header in which its token, padded or not, is the first
   to carry the prefix.
   */
  lemma SecretRoundTrip(secret: Utf8.Text, earlier: seq<string>, before: string, after: string, later: seq<string>)
    requires IsPadding(before) && IsPadding(after)
    requires forall i :: 0 <= i < |earlier| ==> ',' !in earlier[i] && !CarriesSecret(earlier[i])
    requires forall i :: 0 <= i < |later| ==> ',' !in later[i]
    ensures var part := before + TunnelSubprotocol(secret) + after;
      HeaderSecret(Some(Join(earlier + [part] + later, ','))) == Some(Received(secret))
  {
    hide Split, Join, CarriesSecret, TunnelSubprotocol, FirstSecret, IsPadding, SecretIn, HeaderSecret, Received;
    var part := before + TunnelSubprotocol(secret) + after;
    PaddedToken(secret, before, after);
    FirstOf(part, later);
    FirstSecretSkips(earlier, [part] + later);
    var parts := earlier + ([part] + later);
    assert earlier + [part] + later == parts;
    assert part in parts;
    HeaderOf(parts, part);
  }

  lemma HeaderOf(parts: seq<string>, part: string)
    requires part in parts && CarriesSecret(part)
    requires forall i :: 0 <= i < |parts| ==> ',' !in parts[i]
    ensures HeaderSecret(Some(Join(parts, ','))) == FirstSecret(parts)
  {
    hide Split, Join, CarriesSecret, FirstSecret;
    SplitJoin(parts, ',');
    if Join(parts, ',') == "" {
      OnlyEmptyPart(parts);
    }
  }

  lemma FirstOf(part: string, later: seq<string>)
    requires CarriesSecret(part)
    ensures FirstSecret([part] + later) == Some(SecretIn(part))
  {
    assert ([part] + later)[0] == part;
  }

  /** No lone surrogate, and no byte order mark at the start. */
  predicate IsPlainText(secret: Utf8.Text) {
    (forall i :: 0 <= i < |secret| ==> !IsSurrogate(secret[i])) && (secret == [] || secret[0] != BYTE_ORDER_MARK)
  }

  /** The secret comes back as it was exactly when it is plain text. */
  lemma SecretComesBackIff(secret: Utf8.Text, earlier: seq<string>, before: string, after: string, later: seq<string>)
    requires IsPadding(before) && IsPadding(after)
    requires forall i :: 0 <= i < |earlier| ==> ',' !in earlier[i] && !CarriesSecret(earlier[i])
    requires forall i :: 0 <= i < |later| ==> ',' !in later[i]
    ensures var part := before + TunnelSubprotocol(secret) + after;
      HeaderSecret(Some(Join(earlier + [part] + later, ','))) == Some(secret) <==> IsPlainText(secret)
  {
    hide Join, HeaderSecret, TunnelSubprotocol, CarriesSecret, IsPadding;
    SecretRoundTrip(secret, earlier, before, after, later);
    TextRoundTrip(secret);
    TextComesBackIff(secret);
  }

  /** A secret that starts with a byte order mark is received without it. */
  lemma MarkedSecretIsCut(rest: Utf8.Text)
    requires forall i :: 0 <= i < |rest| ==> !IsSurrogate(rest[i])
    ensures HeaderSecret(Some(TunnelSubprotocol([BYTE_ORDER_MARK] + rest))) == Some(rest)
  {
    hide HeaderSecret, Split, CarriesSecret;
    var secret := [BYTE_ORDER_MARK] + rest;
    SecretRoundTrip(secret, [], "", "", []);
    var part := "" + TunnelSubprotocol(secret) + "";
    assert part == TunnelSubprotocol(secret);
    assert [] + [part] + [] == [part] && Join([part], ',') == part;
    assert Scalars(secret)[1..] == Scalars(rest) == rest;
  }

  // ---- the protocol echoed --------------------------------------------------------------

  function FirstToken(parts: seq<string>): (r: Option<string>)
    ensures r.Some? ==> StartsWith(r.value, TUNNEL_SUBPROTOCOL_PREFIX)
  {
    if parts == [] then None
    else if CarriesSecret(parts[0]) then Some(Trim(parts[0]))
    else FirstToken(parts[1..])
  }

  /** `selectedTunnelProtocol`. */
  function SelectedProtocol(header: Option<string>): (r: Option<string>)
    ensures r.Some? ==> StartsWith(r.value, TUNNEL_SUBPROTOCOL_PREFIX)
  {
    if header.None? || header.value == "" then None else FirstToken(Split(header.value, ','))
  }

  lemma {:induction false} FirstTokenHasFirstSecret(parts: seq<string>)
    ensures FirstSecret(parts) ==
      var token := FirstToken(parts);
      if token.None? then None else Some(DecodeText(Decode(token.value[|TUNNEL_SUBPROTOCOL_PREFIX|..])))
  {
    hide CarriesSecret;
    if parts != [] {
      FirstTokenHasFirstSecret(parts[1..]);
    }
  }

  /** The protocol echoed to the client is the token whose secret was read, after its fixed prefix. */
  lemma EchoesTheSecretsToken(header: Option<string>)
    ensures var token := SelectedProtocol(header);
      && HeaderSecret(header) == (if token.None? then None else Some(DecodeText(Decode(token.value[14..]))))
      && (token.Some? ==> token.value[..14] == "dev-router.v1.")
  {
    hide FirstSecret, FirstToken;
    if header.Some? && header.value != "" {
      FirstTokenHasFirstSecret(Split(header.value, ','));
    }
  }

  // ---- tunnel paths ----------------------------------------------------------------------

  const ROOT_TUNNEL_PATH := "/_router/tunnel"

  datatype TunnelPath = NoTunnelPath | BadEncoding | TunnelTo(routeId: string)

  /** `routeIdFromTunnelPath`; a percent-encoding that does not decode makes it throw. */
  function RouteIdFromTunnelPath(path: string): TunnelPath {
    var parts := Split(path, '/');
    if path == ROOT_TUNNEL_PATH then TunnelTo("")
    else if |parts| != 5 || parts[..3] != ["", "_router", "routes"] || parts[3] == "" || parts[4] != "tunnel" then
      NoTunnelPath
    else
      var routeId := IngressUrls.DecodeComponent(parts[3]);
      if routeId.None? then BadEncoding else TunnelTo(routeId.value)
  }

  /** `managementTunnelPath` without its query; allowed route ids need no encoding. */
  function TunnelPathOf(routeId: string): string {
    if routeId == "" then ROOT_TUNNEL_PATH else "/_router/routes/" + routeId + "/tunnel"
  }

  /** The path a sidecar asks for names its route. */
  lemma TunnelPathRoundTrip(routeId: string)
    requires RouteId.IsAllowedRouteId(routeId)
    ensures RouteIdFromTunnelPath(TunnelPathOf(routeId)) == TunnelTo(routeId)
  {
    if routeId != "" {
      assert '/' !in routeId && '%' !in routeId by {
        assert !RouteId.IsRouteIdChar('/') && !RouteId.IsRouteIdChar('%');
      }
      PathParts(routeId);
      PlainComponent(routeId);
      NamedIsNotRoot(routeId);
      hide Split, IngressUrls.DecodeComponent;
    }
  }

  /** Exactly which paths are tunnel paths, and of which route. */
  lemma TunnelPathIff(path: string, routeId: string)
    ensures RouteIdFromTunnelPath(path) == TunnelTo(routeId) <==>
      || (path == "/_router/tunnel" && routeId == "")
      || (path != "/_router/tunnel" && exists name :: IsTunnelPathOf(path, name)
                                                      && IngressUrls.DecodeComponent(name) == Some(routeId))
  {
    hide Split, IngressUrls.DecodeComponent;
    var parts := Split(path, '/');
    forall name | IsTunnelPathOf(path, name) ensures parts == ["", "_router", "routes", name, "tunnel"] {
      NamedPathParts(name);
    }
    if |parts| == 5 && parts[..3] == ["", "_router", "routes"] && parts[3] != "" && parts[4] == "tunnel" {
      PartsNamePath(path, parts[3]);
    }
  }

  /** `/_router/routes/`, one non-empty segment, `/tunnel`. */
  predicate IsTunnelPathOf(path: string, name: string) {
    name != "" && '/' !in name && path == "/_router/routes/" + name + "/tunnel"
  }

  lemma NamedPathParts(name: string)
    requires name != "" && '/' !in name
    ensures Split("/_router/routes/" + name + "/tunnel", '/') == ["", "_router", "routes", name, "tunnel"]
  {
    PathParts(name);
  }

  lemma PartsNamePath(path: string, name: string)
    requires name != "" && Split(path, '/')[..] == ["", "_router", "routes", name, "tunnel"]
    ensures IsTunnelPathOf(path, name)
  {
    PartsLackSeparator(path, '/');
    assert Split(path, '/')[3] in Split(path, '/');
    hide Split;
    NamedPathParts(name);
    JoinSplit(path, '/');
    JoinSplit("/_router/routes/" + name + "/tunnel", '/');
  }

  lemma PlainComponent(text: string)
    requires '%' !in text
    ensures IngressUrls.DecodeComponent(text) == Some(text)
  {
    IngressUrls.LiteralPrefix(text, "");
    assert IngressUrls.DecodeComponent("") == Some("");
    assert text + "" == text;
  }

  lemma NamedIsNotRoot(routeId: string)
    ensures TunnelPathOf(routeId) != ROOT_TUNNEL_PATH <==> routeId != ""
  {
    if routeId != "" {
      assert TunnelPathOf(routeId)[9] == 'r' && ROOT_TUNNEL_PATH[9] == 't';
    }
  }

  lemma PathParts(routeId: string)
    requires '/' !in routeId && routeId != ""
    ensures Split(TunnelPathOf(routeId), '/') == ["", "_router", "routes", routeId, "tunnel"]
  {
    hide Split;
    var parts := ["", "_router", "routes", routeId, "tunnel"];
    SplitJoin(parts, '/');
    var last := "tunnel";
    var named := routeId + ['/'] + last;
    assert Join([last], '/') == last;
    assert [routeId, last][1..] == [last] && Join([routeId, last], '/') == named;
    var routes := "routes" + ['/'] + named;
    assert ["routes", routeId, last][1..] == [routeId, last] && Join(["routes", routeId, last], '/') == routes;
    var router := "_router" + ['/'] + routes;
    assert ["_router", "routes", routeId, last][1..] == ["routes", routeId, last];
    assert Join(["_router", "routes", routeId, last], '/') == router;
    assert parts[1..] == ["_router", "routes", routeId, last];
    assert Join(parts, '/') == "" + ['/'] + router;
    assert "" + ['/'] + router == "/_router/routes/" + routeId + "/tunnel";
  }
}
