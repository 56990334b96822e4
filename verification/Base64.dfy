/** Base64 text as the router writes and reads it (sections 4 and 5 of RFC 4648). */
module Base64 {
  import opened Wrappers

  type Byte = b: int | 0 <= b < 256 witness 0
  type Sextet = s: int | 0 <= s < 64 witness 0

  /** A digit of the standard or of the URL-safe alphabet. */
  function Digit(s: Sextet, url: bool): (c: char)
    ensures c != '.' && c != '=' && c != ',' && '!' < c < '\U{7f}'
  {
    if s < 26 then ('A' as int + s) as char
    else if s < 52 then ('a' as int + s - 26) as char
    else if s < 62 then ('0' as int + s - 52) as char
    else if s == 62 then (if url then '-' else '+')
    else (if url then '_' else '/')
  }

  /** The decoder reads either alphabet. */
  function DigitValue(c: char): Option<Sextet> {
    if 'A' <= c <= 'Z' then Some(c as int - 'A' as int)
    else if 'a' <= c <= 'z' then Some(c as int - 'a' as int + 26)
    else if '0' <= c <= '9' then Some(c as int - '0' as int + 52)
    else if c == '-' || c == '+' then Some(62)
    else if c == '_' || c == '/' then Some(63)
    else None
  }

  /** Three bytes are four sextets; a last byte is two, two last bytes are three. */
  function Pack(bytes: seq<Byte>): seq<Sextet> {
    if |bytes| == 0 then []
    else if |bytes| == 1 then [bytes[0] / 4, bytes[0] % 4 * 16]
    else if |bytes| == 2 then [bytes[0] / 4, bytes[0] % 4 * 16 + bytes[1] / 16, bytes[1] % 16 * 4]
    else [bytes[0] / 4, bytes[0] % 4 * 16 + bytes[1] / 16, bytes[1] % 16 * 4 + bytes[2] / 64,
          bytes[2] % 64] + Pack(bytes[3..])
  }

  /** Bits that do not fill a byte are dropped. */
  function Unpack(sextets: seq<Sextet>): seq<Byte> {
    if |sextets| < 2 then []
    else
      var first: int := (sextets[0] as int) * 4 + sextets[1] / 16;
      if |sextets| == 2 then [first]
      else
        var second: int := (sextets[1] as int) % 16 * 16 + sextets[2] / 4;
        if |sextets| == 3 then [first, second]
        else [first, second, (sextets[2] as int) % 4 * 64 + sextets[3]] + Unpack(sextets[4..])
  }

  /** The byte at this place, and zero behind the end. */
  function ByteAt(bytes: seq<Byte>, i: nat): Byte {
    if i < |bytes| then bytes[i] else 0
  }

  /** The 24 bits of the k-th group of three bytes. */
  function Group(bytes: seq<Byte>, k: nat): nat {
    65536 * ByteAt(bytes, 3 * k) + 256 * ByteAt(bytes, 3 * k + 1) + ByteAt(bytes, 3 * k + 2)
  }

  function SextetOf(group: nat, j: nat): nat {
    if j == 0 then group / 262144 % 64
    else if j == 1 then group / 4096 % 64
    else if j == 2 then group / 64 % 64
    else group % 64
  }

  /** The j-th sextet of the k-th four is that of the k-th group of 24 bits. */
  ghost predicate IsCutOf(bytes: seq<Byte>, sextets: seq<int>, k: nat, j: nat) {
    4 * k + j < |sextets| ==> sextets[4 * k + j] == SextetOf(Group(bytes, k), j)
  }

  ghost predicate IsCutUp(bytes: seq<Byte>, sextets: seq<int>) {
    |sextets| == (4 * |bytes| + 2) / 3 && forall k: nat, j: nat :: j < 4 ==> IsCutOf(bytes, sextets, k, j)
  }

  /** Packing cuts every 24 bits into four sextets, the most significant first, and fills the last group with zeros. */
  lemma {:induction false} PackCutsUp(bytes: seq<Byte>)
    ensures IsCutUp(bytes, Pack(bytes))
  {
    hide SextetOf;
    if |bytes| > 2 {
      PackCutsUp(bytes[3..]);
    }
    forall k: nat, j: nat | j < 4 ensures IsCutOf(bytes, Pack(bytes), k, j) {
      if k == 0 {
        FirstFour(bytes, j);
      } else if |bytes| > 2 {
        GroupOfRest(bytes, k);
        assert IsCutOf(bytes[3..], Pack(bytes[3..]), k - 1, j);
        assert Pack(bytes)[4..] == Pack(bytes[3..]);
      }
    }
  }

  lemma FirstFour(bytes: seq<Byte>, j: nat)
    requires j < 4
    ensures IsCutOf(bytes, Pack(bytes), 0, j)
  {
    hide SextetOf;
    GroupDigits(ByteAt(bytes, 0), ByteAt(bytes, 1), ByteAt(bytes, 2));
  }

  lemma GroupOfRest(bytes: seq<Byte>, k: nat)
    requires |bytes| > 2 && k >= 1
    ensures Group(bytes, k) == Group(bytes[3..], k - 1)
  {
  }

  lemma GroupDigits(a: Byte, b: Byte, c: Byte)
    ensures var group := 65536 * a + 256 * b + c;
      && SextetOf(group, 0) == a / 4 && SextetOf(group, 1) == a % 4 * 16 + b / 16
      && SextetOf(group, 2) == b % 16 * 4 + c / 64 && SextetOf(group, 3) == c % 64
  {
    FourSextets(a / 4, a % 4 * 16 + b / 16, b % 16 * 4 + c / 64, c % 64);
  }

  lemma FourSextets(s0: Sextet, s1: Sextet, s2: Sextet, s3: Sextet)
    ensures var group := 262144 * s0 + 4096 * s1 + 64 * s2 + s3;
      SextetOf(group, 0) == s0 && SextetOf(group, 1) == s1 && SextetOf(group, 2) == s2 && SextetOf(group, 3) == s3
  {
    var group := 262144 * s0 + 4096 * s1 + 64 * s2 + s3;
    assert group / 64 == 4096 * s0 + 64 * s1 + s2;
    assert group / 4096 == 64 * s0 + s1;
    assert group / 262144 == s0;
  }

  /** Letters, digits and two more characters, each range in order; the two alphabets differ in the last two. */
  lemma AlphabetIs(s: Sextet, url: bool)
    ensures Digit(0, url) == 'A' && Digit(26, url) == 'a' && Digit(52, url) == '0'
    ensures s < 62 && s != 0 && s != 26 && s != 52 ==> Digit(s, url) as int == Digit(s - 1, url) as int + 1
    ensures Digit(62, false) == '+' && Digit(63, false) == '/' && Digit(62, true) == '-' && Digit(63, true) == '_'
  {
  }

  lemma {:induction false} UnpackPack(bytes: seq<Byte>)
    ensures Unpack(Pack(bytes)) == bytes
  {
    if |bytes| > 2 {
      var head := Pack(bytes)[..4];
      assert Pack(bytes) == head + Pack(bytes[3..]);
      assert Pack(bytes)[4..] == Pack(bytes[3..]);
      UnpackPack(bytes[3..]);
      assert bytes == [bytes[0], bytes[1], bytes[2]] + bytes[3..];
    }
  }

  function Digits(sextets: seq<Sextet>, url: bool): (text: string)
    ensures |text| == |sextets|
    ensures forall i :: 0 <= i < |text| ==> text[i] == Digit(sextets[i], url)
  {
    seq(|sextets|, i requires 0 <= i < |sextets| => Digit(sextets[i], url))
  }

  /** Characters outside both alphabets are skipped. */
  function Values(text: string): seq<Sextet> {
    if text == "" then []
    else
      var value := DigitValue(text[0]);
      (if value.Some? then [value.value] else []) + Values(text[1..])
  }

  lemma DigitIsRead(s: Sextet, url: bool)
    ensures DigitValue(Digit(s, url)) == Some(s)
  {
  }

  lemma {:induction false} ValuesOfDigits(sextets: seq<Sextet>, url: bool, rest: string)
    ensures Values(Digits(sextets, url) + rest) == sextets + Values(rest)
  {
    hide DigitValue, Digit;
    var text := Digits(sextets, url);
    if sextets == [] {
      assert text + rest == rest;
    } else {
      assert (text + rest)[1..] == Digits(sextets[1..], url) + rest;
      ValuesOfDigits(sextets[1..], url, rest);
      DigitIsRead(sextets[0], url);
      assert sextets == [sextets[0]] + sextets[1..];
    }
  }

  /** `Buffer.from(bytes).toString("base64url")`: no padding. */
  function EncodeUrl(bytes: seq<Byte>): (text: string)
    ensures forall i :: 0 <= i < |text| ==> text[i] != '.' && text[i] != ',' && '!' < text[i] < '\U{7f}'
  {
    Digits(Pack(bytes), true)
  }

  function Padding(length: nat): string {
    if length % 4 == 2 then "==" else if length % 4 == 3 then "=" else ""
  }

  /** `Buffer.from(bytes).toString("base64")`: padded to whole groups of four. */
  function Encode(bytes: seq<Byte>): (text: string) {
    var digits := Digits(Pack(bytes), false);
    digits + Padding(|digits|)
  }

  /** `Buffer.from(text, "base64")` and `Buffer.from(text, "base64url")`. */
  function Decode(text: string): seq<Byte> {
    Unpack(Values(text))
  }

  lemma UrlRoundTrip(bytes: seq<Byte>)
    ensures Decode(EncodeUrl(bytes)) == bytes
    ensures EncodeUrl(bytes) == "" <==> bytes == []
  {
    ValuesOfDigits(Pack(bytes), true, "");
    assert EncodeUrl(bytes) + "" == EncodeUrl(bytes);
    assert Pack(bytes) + Values("") == Pack(bytes);
    UnpackPack(bytes);
    PackLength(bytes);
  }

  /** `encodeBody`: an empty body is left out. */
  function EncodeBody(bytes: seq<Byte>): Option<string> {
    if bytes == [] then None else Some(Encode(bytes))
  }

  function DecodeBody(value: Option<string>): seq<Byte> {
    if value.None? || value.value == "" then [] else Decode(value.value)
  }

  lemma PaddingIsSkipped(length: nat)
    ensures Values(Padding(length)) == []
  {
    assert "="[1..] == "" && "=="[1..] == "=";
    assert Values("=") == [] && Values("==") == [];
  }

  lemma PaddedRoundTrip(bytes: seq<Byte>)
    ensures Decode(Encode(bytes)) == bytes
    ensures |Encode(bytes)| % 4 == 0
    ensures bytes != [] ==> Encode(bytes) != ""
  {
    hide Values, Pack, Unpack, Digit;
    PackLength(bytes);
    var digits := Digits(Pack(bytes), false);
    ValuesOfDigits(Pack(bytes), false, Padding(|digits|));
    PaddingIsSkipped(|digits|);
    assert Pack(bytes) + [] == Pack(bytes);
    UnpackPack(bytes);
  }

  /** Every body survives the tunnel. */
  lemma BodyRoundTrip(bytes: seq<Byte>)
    ensures DecodeBody(EncodeBody(bytes)) == bytes
  {
    hide Encode, Decode;
    PaddedRoundTrip(bytes);
  }

  lemma {:induction false} PackLength(bytes: seq<Byte>)
    ensures |Pack(bytes)| % 4 != 1
    ensures bytes != [] ==> Pack(bytes) != []
  {
    if |bytes| > 2 {
      PackLength(bytes[3..]);
    }
  }
}
