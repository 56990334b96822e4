/** Public path checks and route-prefix stripping (src/ingress-urls.ts). */
module IngressUrls {
  import opened Wrappers
  import opened Text
  import RouteId
  import Utf8

  const MAX_DECODE_ROUNDS := 4

  // ---- decodeURIComponent ----------------------------------------------------

  function HexValue(c: char): Option<int> {
    if '0' <= c <= '9' then Some(c as int - '0' as int)
    else if 'a' <= c <= 'f' then Some(c as int - 'a' as int + 10)
    else if 'A' <= c <= 'F' then Some(c as int - 'A' as int + 10)
    else None
  }

  /** The byte of a `%XX` triplet at the start of `text` (section 2.1 of RFC 3986). */
  function PercentByte(text: string): (b: Option<int>)
    ensures b.Some? ==> |text| >= 3 && text[0] == '%' && 0 <= b.value < 256
  {
    if |text| < 3 || text[0] != '%' || HexValue(text[1]).None? || HexValue(text[2]).None? then None
    else Some(16 * HexValue(text[1]).value + HexValue(text[2]).value)
  }

  /** A UTF-8 continuation byte's payload. */
  function Continuation(text: string): (b: Option<int>)
    ensures b.Some? ==> |text| >= 3 && 0 <= b.value < 64
  {
    var byte := PercentByte(text);
    if byte.Some? && 0x80 <= byte.value < 0xC0 then Some(byte.value - 0x80) else None
  }

  /** The character encoded at the start of `text`, and how much of `text` it takes. */
  function PercentChar(text: string): (r: Option<(char, nat)>)
    ensures r.Some? ==> 3 <= r.value.1 <= |text|
  {
    var first := PercentByte(text);
    if first.None? then None
    else
      var b := first.value;
      if b < 0x80 then Some((b as char, 3))
      else if 0xC2 <= b < 0xE0 then
        var c1 := Continuation(text[3..]);
        if c1.None? then None else Some((((b - 0xC0) * 64 + c1.value) as char, 6))
      else if 0xE0 <= b < 0xF0 then
        var c1 := Continuation(text[3..]);
        if c1.None? then None else
          var c2 := Continuation(text[6..]);
          if c2.None? then None else
            var v := (b - 0xE0) * 4096 + c1.value * 64 + c2.value;
            if v < 0x800 || 0xD800 <= v < 0xE000 then None else Some((v as char, 9))
      else if 0xF0 <= b < 0xF5 then
        var c1 := Continuation(text[3..]);
        if c1.None? then None else
          var c2 := Continuation(text[6..]);
          if c2.None? then None else
            var c3 := Continuation(text[9..]);
            if c3.None? then None else
              var v := (b - 0xF0) * 262144 + c1.value * 4096 + c2.value * 64 + c3.value;
              if v < 0x10000 || 0x110000 <= v then None else Some((v as char, 12))
      else None
  }

  lemma HexDigits(c: char, v: int)
    ensures HexValue(c) == Some(v) <==>
      0 <= v < 16 && (c == "0123456789abcdef"[v] || c == "0123456789ABCDEF"[v])
  {
  }

  /** The text begins with the bytes, each as a percent sign and two hexadecimal digits. */
  predicate HasBytes(text: string, bytes: seq<int>) {
    |text| >= 3 * |bytes| && forall i :: 0 <= i < |bytes| ==> PercentByte(text[3 * i..]) == Some(bytes[i])
  }

  lemma ContinuationIs(text: string, d: int)
    ensures Continuation(text) == Some(d) <==> 0 <= d < 64 && PercentByte(text) == Some(0x80 + d)
  {
  }

  /**
   A character is read exactly where its own UTF-8 bytes stand: no overlong form, no surrogate, nothing
   beyond the last code point.
   */
  lemma PercentCharIff(text: string, c: char, n: nat)
    ensures PercentChar(text) == Some((c, n)) <==>
      n == 3 * |Utf8.EncodeScalar(c as int)| && HasBytes(text, Utf8.EncodeScalar(c as int))
  {
    hide PercentByte, Continuation;
    var bytes := Utf8.EncodeScalar(c as int);
    if n == 3 * |bytes| && HasBytes(text, bytes) {
      BytesAreRead(text, c);
    }
    if PercentChar(text) == Some((c, n)) {
      ReadHasBytes(text, c, n);
    }
  }

  lemma BytesAreRead(text: string, c: char)
    requires HasBytes(text, Utf8.EncodeScalar(c as int))
    ensures PercentChar(text) == Some((c, 3 * |Utf8.EncodeScalar(c as int)|))
  {
    hide PercentByte, Continuation;
    var bytes, v := Utf8.EncodeScalar(c as int), c as int;
    assert text[3 * 0..] == text;
    assert PercentByte(text) == Some(bytes[0]);
    if |bytes| > 1 {
      assert PercentByte(text[3..]) == Some(bytes[1]);
      ContinuationIs(text[3..], bytes[1] - 0x80);
    }
    if |bytes| > 2 {
      assert PercentByte(text[6..]) == Some(bytes[2]);
      ContinuationIs(text[6..], bytes[2] - 0x80);
      Utf8.ThreeDigits(v);
    }
    if |bytes| > 3 {
      assert PercentByte(text[9..]) == Some(bytes[3]);
      ContinuationIs(text[9..], bytes[3] - 0x80);
      Utf8.FourDigits(v);
    }
  }

  lemma ReadHasBytes(text: string, c: char, n: nat)
    requires PercentChar(text) == Some((c, n))
    ensures n == 3 * |Utf8.EncodeScalar(c as int)| && HasBytes(text, Utf8.EncodeScalar(c as int))
  {
    hide PercentByte, Continuation;
    var b := PercentByte(text).value;
    assert text[3 * 0..] == text;
    if b >= 0x80 {
      var d1 := Continuation(text[3..]).value;
      ContinuationIs(text[3..], d1);
      if b >= 0xE0 {
        var d2 := Continuation(text[6..]).value;
        ContinuationIs(text[6..], d2);
        if b >= 0xF0 {
          var d3 := Continuation(text[9..]).value;
          ContinuationIs(text[9..], d3);
          Utf8.FourParts(b - 0xF0, d1, d2, d3);
        } else {
          Utf8.ThreeParts(b - 0xE0, d1, d2);
        }
      } else {
        Utf8.TwoParts(b - 0xC0, d1);
      }
    }
  }

  /** `decodeURIComponent(text)`, or None where it throws. */
  function DecodeComponent(text: string): (r: Option<string>)
    ensures r.Some? ==> |r.value| <= |text|
    ensures r.Some? && |r.value| == |text| ==> r.value == text
  {
    if text == "" then Some("")
    else if text[0] != '%' then
      var rest := DecodeComponent(text[1..]);
      if rest.None? then None else Some([text[0]] + rest.value)
    else
      var c := PercentChar(text);
      if c.None? then None
      else
        var rest := DecodeComponent(text[c.value.1..]);
        if rest.None? then None else Some([c.value.0] + rest.value)
  }

  /** `decodePublicPathnameOnce`: a path that does not decode is kept. */
  function DecodeOnce(path: string): (r: string)
    ensures r == path || |r| < |path|
  {
    var decoded := DecodeComponent(path);
    if decoded.None? then path else decoded.value
  }

  function Decoded(path: string, rounds: nat): string
    decreases rounds
  {
    if rounds == 0 then path else DecodeOnce(Decoded(path, rounds - 1))
  }

  // ---- the `..` check --------------------------------------------------------

  predicate IsLineTerminator(c: char) {
    c == '\n' || c == '\r' || c == '\U{2028}' || c == '\U{2029}'
  }

  /** `segment.replace(/;.*$/, "")`: `.` stops at a line terminator, `$` is the end of the input. */
  function WithoutParams(segment: string): string {
    if segment == "" then ""
    else if segment[0] == ';' && forall i :: 1 <= i < |segment| ==> !IsLineTerminator(segment[i]) then ""
    else [segment[0]] + WithoutParams(segment[1..])
  }

  predicate HasDotDot(path: string) {
    exists segment :: segment in Split(Replace(path, '\\', '/'), '/') && WithoutParams(segment) == ".."
  }

  /** Two dots, with nothing behind them or parameters up to the end. */
  predicate IsDotDot(segment: string) {
    && |segment| >= 2 && segment[0] == '.' && segment[1] == '.'
    && (|segment| == 2 || (segment[2] == ';' && forall i :: 3 <= i < |segment| ==> !IsLineTerminator(segment[i])))
  }

  /** A semicolon and nothing behind it that ends a line. */
  predicate IsParams(text: string) {
    text != "" && text[0] == ';' && forall i :: 1 <= i < |text| ==> !IsLineTerminator(text[i])
  }

  lemma WithoutParamsIsDotDot(segment: string)
    ensures WithoutParams(segment) == ".." <==> IsDotDot(segment)
  {
    hide IsLineTerminator;
    if segment != "" && !IsParams(segment) {
      var rest := segment[1..];
      assert WithoutParams(segment) == [segment[0]] + WithoutParams(rest);
      if rest != "" && !IsParams(rest) {
        assert WithoutParams(rest) == [rest[0]] + WithoutParams(rest[1..]);
        assert rest[1..] == segment[2..];
        DotsThen(segment[0], rest[0], WithoutParams(segment[2..]));
        NothingLeft(segment[2..]);
        ParamsBehind(segment);
      }
    }
  }

  lemma DotsThen(a: char, b: char, rest: string)
    ensures [a] + ([b] + rest) == ".." <==> a == '.' && b == '.' && rest == ""
  {
    var text := [a] + ([b] + rest);
    assert text[0] == a && text[1] == b && text[2..] == rest;
    assert ".."[2..] == "";
  }

  lemma NothingLeft(text: string)
    ensures WithoutParams(text) == "" <==> text == "" || IsParams(text)
  {
  }

  lemma ParamsBehind(segment: string)
    requires |segment| >= 2
    ensures IsParams(segment[2..]) <==>
      |segment| > 2 && segment[2] == ';' && forall i :: 3 <= i < |segment| ==> !IsLineTerminator(segment[i])
  {
    var rest := segment[2..];
    assert forall i :: 1 <= i < |rest| ==> rest[i] == segment[i + 2];
    assert forall i :: 3 <= i < |segment| ==> segment[i] == rest[i - 2];
  }

  predicate IsSlash(c: char) { c == '/' || c == '\\' }

  /** A stretch of the path between slashes of either kind. */
  predicate IsSegment(path: string, i: int, j: int) {
    && 0 <= i <= j <= |path|
    && (i == 0 || IsSlash(path[i - 1])) && (j == |path| || IsSlash(path[j]))
    && forall k :: i <= k < j ==> !IsSlash(path[k])
  }

  lemma StretchIsSegment(path: string, i: int, j: int)
    ensures IsStretch(Replace(path, '\\', '/'), '/', i, j) <==> IsSegment(path, i, j)
    ensures IsSegment(path, i, j) ==> Replace(path, '\\', '/')[i..j] == path[i..j]
  {
    var slashed := Replace(path, '\\', '/');
    if 0 <= i <= j <= |path| {
      assert forall k :: i <= k < j ==> slashed[i..j][k - i] == slashed[k];
      if '/' !in slashed[i..j] {
        forall k | i <= k < j ensures !IsSlash(path[k]) {
          assert slashed[i..j][k - i] in slashed[i..j];
        }
      }
    }
  }

  /** Exactly which paths show a `..`: those with such a segment, whichever slashes are around it. */
  lemma HasDotDotIff(path: string)
    ensures HasDotDot(path) <==> exists i, j :: IsSegment(path, i, j) && IsDotDot(path[i..j])
  {
    var slashed := Replace(path, '\\', '/');
    hide WithoutParams, Split, IsDotDot;
    if HasDotDot(path) {
      var part :| part in Split(slashed, '/') && WithoutParams(part) == "..";
      PartIff(slashed, '/', part);
      var i, j :| IsStretch(slashed, '/', i, j) && slashed[i..j] == part;
      StretchIsSegment(path, i, j);
      WithoutParamsIsDotDot(part);
      assert IsSegment(path, i, j) && IsDotDot(path[i..j]);
    }
    if i, j :| IsSegment(path, i, j) && IsDotDot(path[i..j]) {
      StretchIsSegment(path, i, j);
      WithoutParamsIsDotDot(path[i..j]);
      PartIff(slashed, '/', path[i..j]);
    }
  }

  /** A `..` segment shows after exactly k decodings. */
  predicate DotDotAt(path: string, k: nat) {
    HasDotDot(Decoded(path, k))
  }

  /** A `..` segment shows within the first `rounds` decodings. */
  predicate DotDotWithin(path: string, rounds: nat) {
    exists k: nat :: k <= rounds && DotDotAt(path, k)
  }

  method PathSegmentsIncludeDotDot(path: string) returns (found: bool)
    ensures found == HasDotDot(path)
  {
    var segments := Split(Replace(path, '\\', '/'), '/');
    for i := 0 to |segments|
      invariant forall j :: 0 <= j < i ==> WithoutParams(segments[j]) != ".."
    {
      if WithoutParams(segments[i]) == ".." {
        return true;
      }
    }
    return false;
  }

  lemma {:induction false} DecodedFixpoint(path: string, k: nat, more: nat)
    requires Decoded(path, k + 1) == Decoded(path, k)
    ensures Decoded(path, k + more) == Decoded(path, k)
    decreases more
  {
    if more > 0 {
      DecodedFixpoint(path, k, more - 1);
    }
  }

  /** The check with its bound: decode until a `..` shows, the path settles, or the bound is met. */
  method PublicPathHasDotDotSegment(path: string, limit: nat := MAX_DECODE_ROUNDS) returns (found: bool)
    ensures found == DotDotWithin(path, limit)
  {
    hide HasDotDot, DecodeOnce;
    var current := path;
    for i := 0 to limit
      invariant current == Decoded(path, i)
      invariant forall k: nat :: k < i ==> !DotDotAt(path, k)
    {
      var here := PathSegmentsIncludeDotDot(current);
      if here {
        assert DotDotAt(path, i);
        return true;
      }
      var decoded := DecodeOnce(current);
      if decoded == current {
        forall k: nat | i <= k ensures !DotDotAt(path, k) {
          DecodedFixpoint(path, i, k - i);
        }
        return false;
      }
      current := decoded;
    }
    found := PathSegmentsIncludeDotDot(current);
    assert found == DotDotAt(path, limit);
  }

  /** A path that has settled at the bound is judged on every decoding it has. */
  lemma SettledPathsAreFullyJudged(path: string, limit: nat)
    requires Decoded(path, limit + 1) == Decoded(path, limit)
    ensures DotDotWithin(path, limit) <==> exists k: nat :: DotDotAt(path, k)
  {
    if k: nat :| DotDotAt(path, k) {
      if k > limit {
        DecodedFixpoint(path, limit, k - limit);
        assert DotDotAt(path, limit);
      }
    }
  }

  /** Each round that changes the path shortens it, so decoding settles within |path| rounds. */
  lemma {:induction false} DecodingSettles(path: string, k: nat)
    ensures Decoded(path, k + 1) == Decoded(path, k) || |Decoded(path, k + 1)| + k + 1 <= |path|
    decreases k
  {
    if k > 0 {
      DecodingSettles(path, k - 1);
    }
  }

  /** A path without percent signs decodes to itself and is judged as it stands. */
  lemma {:induction false} PlainPathIsJudgedAsIs(path: string, limit: nat)
    requires '%' !in path
    ensures DotDotWithin(path, limit) <==> HasDotDot(path)
  {
    hide HasDotDot, DecodeComponent;
    PlainPathStays(path);
    assert Decoded(path, 0) == path && Decoded(path, 1) == path;
    forall k: nat ensures DotDotAt(path, k) <==> HasDotDot(path) {
      DecodedFixpoint(path, 0, k);
    }
    assert DotDotAt(path, 0) <==> HasDotDot(path);
  }

  lemma PlainPathStays(path: string)
    requires '%' !in path
    ensures DecodeOnce(path) == path
  {
    LiteralPrefix(path, "");
    assert DecodeComponent("") == Some("");
    assert path + "" == path;
    hide DecodeComponent;
  }

  // ---- paths that hide `..` under n rounds of encoding -------------------------

  /** A dot percent-encoded n times: `.`, `%2e`, `%252e`, … */
  function EncodedDot(n: nat): (r: string)
    ensures r != "" && (n > 0 ==> r[0] == '%')
    ensures forall i :: 0 <= i < |r| ==> r[i] != '/' && r[i] != '\\' && r[i] != ';'
    ensures forall i :: 1 <= i < |r| ==> r[i] != '%'
  {
    if n == 0 then "." else if n == 1 then "%2e" else "%25" + EncodedDot(n - 1)[1..]
  }

  function EncodedTraversal(n: nat): string {
    "/" + EncodedDot(n) + EncodedDot(n)
  }

  lemma {:induction false} LiteralPrefix(literal: string, rest: string)
    requires '%' !in literal
    ensures DecodeComponent(literal + rest) ==
      (if DecodeComponent(rest).None? then None else Some(literal + DecodeComponent(rest).value))
  {
    hide PercentChar;
    if literal == "" {
      assert literal + rest == rest;
      assert DecodeComponent(rest).Some? ==> literal + DecodeComponent(rest).value == DecodeComponent(rest).value;
    } else {
      assert (literal + rest)[1..] == literal[1..] + rest;
      assert forall c :: c in literal[1..] ==> c in literal;
      LiteralPrefix(literal[1..], rest);
      if DecodeComponent(rest).Some? {
        assert literal + DecodeComponent(rest).value == [literal[0]] + (literal[1..] + DecodeComponent(rest).value);
      }
    }
  }

  lemma PeelLastRound(rest: string)
    requires DecodeComponent(rest).Some?
    ensures DecodeComponent("%2e" + rest) == Some("." + DecodeComponent(rest).value)
  {
    var text := "%2e" + rest;
    assert text[3..] == rest;
    assert PercentByte(text) == Some(0x2e);
  }

  lemma PeelPercent(tail: string, rest: string)
    requires DecodeComponent(rest).Some? && '%' !in tail
    ensures DecodeComponent("%25" + tail + rest) == Some("%" + tail + DecodeComponent(rest).value)
  {
    var text := "%25" + tail + rest;
    assert text == "%25" + (tail + rest);
    assert text[3..] == tail + rest;
    assert PercentByte(text) == Some(0x25);
    LiteralPrefix(tail, rest);
    assert "%" + (tail + DecodeComponent(rest).value) == "%" + tail + DecodeComponent(rest).value;
  }

  lemma PeelDot(n: nat, rest: string)
    requires DecodeComponent(rest).Some?
    ensures DecodeComponent(EncodedDot(n + 1) + rest) == Some(EncodedDot(n) + DecodeComponent(rest).value)
  {
    hide DecodeComponent;
    if n == 0 {
      PeelLastRound(rest);
    } else {
      var tail := EncodedDot(n)[1..];
      PeelPercent(tail, rest);
      assert EncodedDot(n) == "%" + tail;
    }
  }

  lemma PeelOnce(m: nat)
    ensures DecodeOnce(EncodedTraversal(m + 1)) == EncodedTraversal(m)
  {
    hide EncodedDot;
    var inner, outer := EncodedDot(m), EncodedDot(m + 1);
    PeelDot(m, "");
    assert outer + "" == outer && inner + "" == inner;
    PeelDot(m, outer);
    LiteralPrefix("/", outer + outer);
    assert EncodedTraversal(m + 1) == "/" + (outer + outer);
    assert EncodedTraversal(m) == "/" + (inner + inner);
  }

  lemma {:induction false} PeelTraversal(n: nat, rounds: nat)
    requires rounds <= n
    ensures Decoded(EncodedTraversal(n), rounds) == EncodedTraversal(n - rounds)
    decreases rounds
  {
    if rounds > 0 {
      PeelTraversal(n, rounds - 1);
      PeelOnce(n - rounds);
    }
  }

  lemma {:induction false} NothingToStrip(segment: string)
    requires forall i :: 0 <= i < |segment| ==> segment[i] != ';'
    ensures WithoutParams(segment) == segment
  {
    if segment != "" {
      NothingToStrip(segment[1..]);
    }
  }

  /** No character that separates, hides or encodes. */
  predicate IsPlainSegment(text: string) {
    '/' !in text && '\\' !in text && ';' !in text && '%' !in text
  }

  /** A path of one plain segment is caught exactly when it is `..`. */
  lemma PlainSegment(segment: string, limit: nat)
    requires IsPlainSegment(segment)
    ensures DotDotWithin("/" + segment, limit) <==> segment == ".."
  {
    hide DecodeComponent, DotDotWithin;
    var path := "/" + segment;
    PlainPathIsJudgedAsIs(path, limit);
    assert Replace(path, '\\', '/') == path;
    assert path == "" + ['/'] + segment;
    SplitAppend("", segment, '/');
    SplitWhole("", '/');
    SplitWhole(segment, '/');
    assert Split(path, '/') == ["", segment];
    hide Split;
    assert [""][0] == "" && ["", segment][1] == segment;
    NothingToStrip("");
    NothingToStrip(segment);
    hide WithoutParams;
  }

  /** A path of two plain segments is caught exactly when one of them is `..`. */
  lemma TwoPlainSegments(first: string, second: string, limit: nat)
    requires IsPlainSegment(first) && IsPlainSegment(second)
    ensures DotDotWithin("/" + first + "/" + second, limit) <==> first == ".." || second == ".."
  {
    hide DecodeComponent, DotDotWithin;
    var path := "/" + first + "/" + second;
    assert '%' !in path && '\\' !in path;
    PlainPathIsJudgedAsIs(path, limit);
    assert Replace(path, '\\', '/') == path;
    assert path == "" + ['/'] + (first + ['/'] + second);
    SplitAppend("", first + ['/'] + second, '/');
    SplitAppend(first, second, '/');
    SplitWhole("", '/');
    SplitWhole(first, '/');
    SplitWhole(second, '/');
    assert Split(path, '/') == [""] + ([first] + [second]);
    hide Split;
    var parts := [""] + ([first] + [second]);
    assert parts[0] == "" && parts[1] == first && parts[2] == second;
    NothingToStrip("");
    NothingToStrip(first);
    NothingToStrip(second);
    hide WithoutParams;
  }

  lemma TraversalVisible(n: nat)
    ensures HasDotDot(EncodedTraversal(n)) <==> n == 0
  {
    var body := EncodedDot(n) + EncodedDot(n);
    var path := EncodedTraversal(n);
    assert path == "" + ['/'] + body;
    assert Replace(path, '\\', '/') == path;
    SplitAppend("", body, '/');
    SplitWhole(body, '/');
    assert Split("", '/') == [""];
    assert Split(path, '/') == ["", body];
    NothingToStrip(body);
    assert WithoutParams("") == "";
    if n == 0 {
      assert body == "..";
      assert body in Split(path, '/');
    } else {
      assert body[0] == '%';
    }
  }

  /**
   The bound is exact: `..` hidden under n rounds of encoding is caught iff n <= limit, although for
   every n some number of rounds decodes it to `/..`.
   */
  lemma BoundIsExact(n: nat, limit: nat)
    ensures DotDotAt(EncodedTraversal(n), n)
    ensures DotDotWithin(EncodedTraversal(n), limit) <==> n <= limit
  {
    PeelTraversal(n, n);
    TraversalVisible(0);
    assert DotDotAt(EncodedTraversal(n), n);
    if n > limit {
      forall k: nat | k <= limit ensures !DotDotAt(EncodedTraversal(n), k) {
        PeelTraversal(n, k);
        TraversalVisible(n - k);
      }
    }
  }

  // ---- stripping the route prefix ----------------------------------------------

  /** `remainingPathFromPublicUrl`. */
  function RemainingPath(path: string, routeId: string): string {
    if routeId == "" then (if path == "" then "/" else path)
    else
      var prefix := "/" + routeId;
      if path == prefix then ""
      else if StartsWith(path, prefix + "/") then path[|prefix|..]
      else path
  }

  /** Decoding works behind a literal prefix exactly as it does on its own. */
  lemma {:induction false} DecodedBehindLiteral(literal: string, rest: string, k: nat)
    requires '%' !in literal
    ensures Decoded(literal + rest, k) == literal + Decoded(rest, k)
    decreases k
  {
    if k > 0 {
      DecodedBehindLiteral(literal, rest, k - 1);
      LiteralPrefix(literal, Decoded(rest, k - 1));
    }
  }

  lemma {:induction false} DecodedKeepsSlash(rest: string, k: nat)
    requires rest == "" || rest[0] == '/'
    ensures Decoded(rest, k) == "" || Decoded(rest, k)[0] == '/'
    decreases k
  {
    if k > 0 {
      DecodedKeepsSlash(rest, k - 1);
    }
  }

  lemma DotDotBehindPrefix(prefix: string, rest: string)
    requires rest == "" || rest[0] == '/'
    requires HasDotDot(rest)
    ensures HasDotDot(prefix + rest)
  {
    var plain := Replace(rest, '\\', '/');
    var segment :| segment in Split(plain, '/') && WithoutParams(segment) == "..";
    if rest == "" {
      assert false;
    } else {
      var tail := plain[1..];
      assert plain == "" + ['/'] + tail;
      SplitAppend("", tail, '/');
      assert Split("", '/') == [""];
      assert WithoutParams("") == "";
      assert segment in Split(tail, '/');
      var before := Replace(prefix, '\\', '/');
      assert Replace(prefix + rest, '\\', '/') == before + ['/'] + tail;
      SplitAppend(before, tail, '/');
    }
  }

  /**
   Stripping a valid route prefix from a path that passes the check leaves a path that passes it,
   whatever the path and however many rounds: the second check in `handlePublicIngress` never fires.
   */
  lemma StrippingKeepsPathsClean(path: string, routeId: string, rounds: nat)
    requires RouteId.IsAllowedRouteId(routeId)
    requires !DotDotWithin(path, rounds)
    ensures !DotDotWithin(RemainingPath(path, routeId), rounds)
  {
    var remaining := RemainingPath(path, routeId);
    if path == "" && routeId == "" {
      forall k: nat | k <= rounds ensures !DotDotAt("/", k) {
        RootDecodes(k);
      }
    } else if remaining != path {
      var prefix := "/" + routeId;
      assert path == prefix + remaining;
      assert '%' !in prefix by {
        assert !RouteId.IsRouteIdChar('%');
      }
      forall k: nat | k <= rounds ensures !DotDotAt(remaining, k) {
        DecodedKeepsSlash(remaining, k);
        DecodedBehindLiteral(prefix, remaining, k);
        assert !DotDotAt(path, k);
        if HasDotDot(Decoded(remaining, k)) {
          DotDotBehindPrefix(prefix, Decoded(remaining, k));
        }
      }
    }
  }

  lemma {:induction false} RootDecodes(k: nat)
    ensures Decoded("/", k) == "/" && !HasDotDot("/")
    decreases k
  {
    assert DecodeComponent("") == Some("");
    assert DecodeComponent("/") == Some("/");
    assert Replace("/", '\\', '/') == "/";
    assert Split("", '/') == [""];
    assert Split("/", '/') == ["", ""];
    assert WithoutParams("") == "";
    if k > 0 {
      RootDecodes(k - 1);
    }
  }
}
