/**
 `TextEncoder` and `TextDecoder` (the UTF-8 coder of the WHATWG Encoding Standard). Text is a sequence
 of code points, lone surrogates included, as a JavaScript string may hold them.
 */
module Utf8 {
  import opened Base64

  type CodePoint = c: int | 0 <= c < 0x110000 witness 0
  type Text = seq<CodePoint>

  const REPLACEMENT: CodePoint := 0xFFFD
  const BYTE_ORDER_MARK: CodePoint := 0xFEFF

  predicate IsSurrogate(c: CodePoint) {
    0xD800 <= c < 0xE000
  }

  /** What can be encoded of a code point. */
  function Scalar(c: CodePoint): CodePoint {
    if IsSurrogate(c) then REPLACEMENT else c
  }

  // ---- encoding ------------------------------------------------------------------------

  function EncodeScalar(c: CodePoint): (bytes: seq<Byte>)
    ensures 1 <= |bytes| <= 4
  {
    if c < 0x80 then [c]
    else if c < 0x800 then [0xC0 + c / 64, 0x80 + c % 64]
    else if c < 0x10000 then [0xE0 + c / 4096, 0x80 + c / 64 % 64, 0x80 + c % 64]
    else [0xF0 + c / 262144, 0x80 + c / 4096 % 64, 0x80 + c / 64 % 64, 0x80 + c % 64]
  }

  /** `new TextEncoder().encode(text)`. */
  function EncodeText(text: Text): seq<Byte> {
    if text == [] then [] else EncodeScalar(Scalar(text[0])) + EncodeText(text[1..])
  }

  // ---- decoding ------------------------------------------------------------------------

  predicate IsWithin(bytes: seq<Byte>, lower: Byte, upper: Byte) {
    bytes != [] && lower <= bytes[0] <= upper
  }

  /** How many code points so many continuation bytes can still tell apart. */
  function Room(need: nat): (room: nat)
    requires need <= 2
  {
    if need == 0 then 1 else if need == 1 then 64 else 4096
  }

  /** One more continuation byte for each of `need`; the code point if all were there, and how many were read. */
  function Continue(bytes: seq<Byte>, need: nat, lower: Byte, upper: Byte, sofar: nat): (r: (CodePoint, nat))
    requires need <= 3 && 0x80 <= lower <= upper <= 0xBF
    requires if need == 0 then sofar < 0x110000 else (sofar * 64 + upper - 0x80 + 1) * Room(need - 1) <= 0x110000
    ensures r.1 <= |bytes|
  {
    if need == 0 then (sofar, 0)
    else if !IsWithin(bytes, lower, upper) then (REPLACEMENT, 0)
    else
      var rest := Continue(bytes[1..], need - 1, 0x80, 0xBF, sofar * 64 + bytes[0] - 0x80);
      (rest.0, rest.1 + 1)
  }

  /** The continuation bytes a lead byte asks for, and the bounds of the first. */
  function Lead(b: Byte): (r: (nat, Byte, Byte))
    ensures r.0 <= 3 && 0x80 <= r.1 <= r.2 <= 0xBF
    ensures r.0 > 0 ==> (LeadBits(b) * 64 + r.2 - 0x80 + 1) * Room(r.0 - 1) <= 0x110000
  {
    if 0xC2 <= b < 0xE0 then (1, 0x80, 0xBF)
    else if b == 0xE0 then (2, 0xA0, 0xBF)
    else if b == 0xED then (2, 0x80, 0x9F)
    else if 0xE0 < b < 0xF0 then (2, 0x80, 0xBF)
    else if b == 0xF0 then (3, 0x90, 0xBF)
    else if b == 0xF4 then (3, 0x80, 0x8F)
    else if 0xF0 < b < 0xF4 then (3, 0x80, 0xBF)
    else (0, 0x80, 0xBF)
  }

  /** The bits of the code point in a lead byte. */
  function LeadBits(b: Byte): nat {
    if b < 0x80 then b else if b < 0xE0 then b % 32 else if b < 0xF0 then b % 16 else b % 8
  }

  /**
   The first code point of a byte sequence, and how many bytes it takes: an error takes those that could
   have begun one.
   */
  function First(bytes: seq<Byte>): (r: (CodePoint, nat))
    requires bytes != []
    ensures 1 <= r.1 <= |bytes|
  {
    var lead := Lead(bytes[0]);
    if bytes[0] >= 0x80 && lead.0 == 0 then (REPLACEMENT, 1)
    else
      var c := Continue(bytes[1..], lead.0, lead.1, lead.2, LeadBits(bytes[0]));
      (c.0, c.1 + 1)
  }

  function DecodeAll(bytes: seq<Byte>): Text {
    if bytes == [] then [] else [First(bytes).0] + DecodeAll(bytes[First(bytes).1..])
  }

  function WithoutMark(text: Text): Text {
    if text != [] && text[0] == BYTE_ORDER_MARK then text[1..] else text
  }

  /** `new TextDecoder().decode(bytes)`: malformed input is replaced, a byte order mark at the start is dropped. */
  function DecodeText(bytes: seq<Byte>): Text {
    WithoutMark(DecodeAll(bytes))
  }

  // ---- what comes back -------------------------------------------------------------------

  /** One step of reading: the continuation byte at the front. */
  lemma ContinueOne(b: Byte, rest: seq<Byte>, need: nat, lower: Byte, upper: Byte, sofar: nat)
    requires 1 <= need <= 3 && 0x80 <= lower <= b <= upper <= 0xBF
    requires (sofar * 64 + upper - 0x80 + 1) * Room(need - 1) <= 0x110000
    requires need > 1 ==> (sofar * 64 + b - 0x80 + 1) * 64 * Room(need - 2) <= 0x110000
    ensures var r := Continue(rest, need - 1, 0x80, 0xBF, sofar * 64 + b - 0x80);
      Continue([b] + rest, need, lower, upper, sofar) == (r.0, r.1 + 1)
  {
    assert ([b] + rest)[1..] == rest;
  }

  lemma ReadTwo(d0: nat, d1: nat, rest: seq<Byte>)
    requires 2 <= d0 < 32 && d1 < 64
    ensures First([0xC0 + d0, 0x80 + d1] + rest) == (d0 * 64 + d1, 2)
  {
    var bytes: seq<Byte> := [0xC0 + d0, 0x80 + d1] + rest;
    assert bytes[1..] == [0x80 + d1] + rest;
    ContinueOne(0x80 + d1, rest, 1, 0x80, 0xBF, d0);
    assert LeadBits(bytes[0]) == d0;
  }

  /** Neither an overlong form nor a surrogate. */
  lemma ReadThree(d0: nat, d1: nat, d2: nat, rest: seq<Byte>)
    requires d0 < 16 && d1 < 64 && d2 < 64 && (d0 == 0 ==> d1 >= 32) && (d0 == 13 ==> d1 < 32)
    ensures First([0xE0 + d0, 0x80 + d1, 0x80 + d2] + rest) == (d0 * 4096 + d1 * 64 + d2, 3)
  {
    var bytes: seq<Byte> := [0xE0 + d0, 0x80 + d1, 0x80 + d2] + rest;
    var lead := Lead(bytes[0]);
    assert bytes[1..] == [0x80 + d1] + ([0x80 + d2] + rest);
    ContinueOne(0x80 + d1, [0x80 + d2] + rest, 2, lead.1, lead.2, d0);
    ContinueOne(0x80 + d2, rest, 1, 0x80, 0xBF, d0 * 64 + d1);
    assert LeadBits(bytes[0]) == d0;
  }

  /** Neither an overlong form nor beyond the last code point. */
  lemma ReadFour(d0: nat, d1: nat, d2: nat, d3: nat, rest: seq<Byte>)
    requires d0 < 5 && d1 < 64 && d2 < 64 && d3 < 64 && (d0 == 0 ==> d1 >= 16) && (d0 == 4 ==> d1 < 16)
    ensures First([0xF0 + d0, 0x80 + d1, 0x80 + d2, 0x80 + d3] + rest) == (d0 * 262144 + d1 * 4096 + d2 * 64 + d3, 4)
  {
    var bytes: seq<Byte> := [0xF0 + d0, 0x80 + d1, 0x80 + d2, 0x80 + d3] + rest;
    var lead := Lead(bytes[0]);
    assert bytes[1..] == [0x80 + d1] + ([0x80 + d2] + ([0x80 + d3] + rest));
    ContinueOne(0x80 + d1, [0x80 + d2] + ([0x80 + d3] + rest), 3, lead.1, lead.2, d0);
    ContinueOne(0x80 + d2, [0x80 + d3] + rest, 2, 0x80, 0xBF, d0 * 64 + d1);
    ContinueOne(0x80 + d3, rest, 1, 0x80, 0xBF, (d0 * 64 + d1) * 64 + d2);
    assert LeadBits(bytes[0]) == d0;
  }

  lemma FirstOfEncoded(c: CodePoint, rest: seq<Byte>)
    requires !IsSurrogate(c)
    ensures First(EncodeScalar(c) + rest) == (c, |EncodeScalar(c)|)
  {
    hide First;
    if c < 0x80 {
      FirstOfAscii(c, rest);
    } else if c < 0x800 {
      ReadTwo(c / 64, c % 64, rest);
    } else if c < 0x10000 {
      ThreeDigits(c);
      ReadThree(c / 4096, c / 64 % 64, c % 64, rest);
    } else {
      FourDigits(c);
      ReadFour(c / 262144, c / 4096 % 64, c / 64 % 64, c % 64, rest);
    }
  }

  lemma ThreeDigits(c: nat)
    ensures c == c / 4096 * 4096 + c / 64 % 64 * 64 + c % 64
  {
    var rest := c / 64;
    assert c == rest / 64 * 4096 + rest % 64 * 64 + c % 64;
    assert c / 4096 == rest / 64;
  }

  lemma FourDigits(c: nat)
    ensures c == c / 262144 * 262144 + c / 4096 % 64 * 4096 + c / 64 % 64 * 64 + c % 64
  {
    ThreeDigits(c);
    var rest := c / 4096;
    assert rest == rest / 64 * 64 + rest % 64;
    assert c / 262144 == rest / 64;
  }

  lemma TwoParts(d0: nat, d1: nat)
    requires d1 < 64
    ensures (d0 * 64 + d1) / 64 == d0 && (d0 * 64 + d1) % 64 == d1
  {
  }

  lemma ThreeParts(d0: nat, d1: nat, d2: nat)
    requires d1 < 64 && d2 < 64
    ensures var c := d0 * 4096 + d1 * 64 + d2;
      c / 4096 == d0 && c / 64 % 64 == d1 && c % 64 == d2
  {
    var upper := d0 * 64 + d1;
    TwoParts(upper, d2);
    TwoParts(d0, d1);
    assert d0 * 4096 + d1 * 64 + d2 == upper * 64 + d2;
    assert (upper * 64 + d2) / 4096 == upper / 64;
  }

  lemma FourParts(d0: nat, d1: nat, d2: nat, d3: nat)
    requires d1 < 64 && d2 < 64 && d3 < 64
    ensures var c := d0 * 262144 + d1 * 4096 + d2 * 64 + d3;
      c / 262144 == d0 && c / 4096 % 64 == d1 && c / 64 % 64 == d2 && c % 64 == d3
  {
    var upper := d0 * 4096 + d1 * 64 + d2;
    TwoParts(upper, d3);
    ThreeParts(d0, d1, d2);
    var c := upper * 64 + d3;
    assert c == d0 * 262144 + d1 * 4096 + d2 * 64 + d3;
    assert c / 64 == upper;
    assert c / 4096 == upper / 64 && c / 262144 == upper / 4096;
  }

  lemma FirstOfAscii(c: CodePoint, rest: seq<Byte>)
    requires c < 0x80
    ensures First([c] + rest) == (c, 1)
  {
  }

  function Scalars(text: Text): (r: Text)
    ensures |r| == |text|
    ensures forall i :: 0 <= i < |text| ==> r[i] == Scalar(text[i])
  {
    seq(|text|, i requires 0 <= i < |text| => Scalar(text[i]))
  }

  lemma {:induction false} DecodeEncoded(text: Text)
    ensures DecodeAll(EncodeText(text)) == Scalars(text)
  {
    hide First, EncodeScalar;
    if text != [] {
      var c, rest := Scalar(text[0]), EncodeText(text[1..]);
      var bytes := EncodeScalar(c) + rest;
      FirstOfEncoded(c, rest);
      assert bytes[|EncodeScalar(c)|..] == rest;
      DecodeEncoded(text[1..]);
    }
  }

  /** What encoding and decoding makes of a text. */
  lemma TextRoundTrip(text: Text)
    ensures DecodeText(EncodeText(text)) == WithoutMark(Scalars(text))
  {
    DecodeEncoded(text);
  }

  /** A text comes back exactly when it has no lone surrogate and does not start with a byte order mark. */
  lemma TextComesBackIff(text: Text)
    ensures DecodeText(EncodeText(text)) == text <==>
      (forall i :: 0 <= i < |text| ==> !IsSurrogate(text[i])) && (text == [] || text[0] != BYTE_ORDER_MARK)
  {
    TextRoundTrip(text);
    if i :| 0 <= i < |text| && IsSurrogate(text[i]) {
      assert Scalars(text)[i] != text[i];
    } else {
      assert Scalars(text) == text;
    }
  }
}
