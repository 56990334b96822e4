/** Reading a request body under a cap (src/ingress-body.ts). */
module IngressBody {
  import opened Wrappers
  import opened Base64
  import Text

  const TUNNEL_MAX_BODY_BYTES := 768 * 1024

  datatype Rejection = Rejection(bodyBytes: int)

  predicate IsDigits(text: string) {
    forall i :: 0 <= i < |text| ==> '0' <= text[i] <= '9'
  }

  function Number(digits: string): nat
    requires IsDigits(digits)
  {
    if digits == "" then 0 else Number(digits[..|digits| - 1]) * 10 + (digits[|digits| - 1] as int - '0' as int)
  }

  /** `declaredIngressContentLength`: one to twelve digits, outer whitespace aside. */
  function DeclaredLength(header: Option<string>): Option<nat> {
    if header.None? then None
    else
      var trimmed := Text.Trim(header.value);
      if 1 <= |trimmed| <= 12 && IsDigits(trimmed) then Some(Number(trimmed)) else None
  }

  /** A number as it is written, without leading zeros. */
  function Decimal(n: nat): string {
    if n < 10 then [('0' as int + n) as char] else Decimal(n / 10) + [('0' as int + n % 10) as char]
  }

  /** Reading digits inverts writing them, whatever zeros stand in front. */
  lemma {:induction false} NumberOfDecimal(zeros: string, n: nat)
    requires forall i :: 0 <= i < |zeros| ==> zeros[i] == '0'
    ensures IsDigits(zeros + Decimal(n)) && Number(zeros + Decimal(n)) == n
    decreases n
  {
    var text := zeros + Decimal(n);
    if n < 10 {
      assert text[..|text| - 1] == zeros;
      ZerosAreNothing(zeros);
    } else {
      NumberOfDecimal(zeros, n / 10);
      assert text[..|text| - 1] == zeros + Decimal(n / 10);
      assert IsDigits(text[..|text| - 1]);
      assert forall i :: 0 <= i < |text| - 1 ==> text[i] == text[..|text| - 1][i];
    }
  }

  lemma {:induction false} ZerosAreNothing(zeros: string)
    requires forall i :: 0 <= i < |zeros| ==> zeros[i] == '0'
    ensures Number(zeros) == 0
  {
    if zeros != "" {
      ZerosAreNothing(zeros[..|zeros| - 1]);
    }
  }

  /**
   Exactly which headers declare a length, and which: whitespace, zeros and a decimal number, in at most
   twelve digits.
   */
  lemma DeclaredLengthOfDecimal(before: string, zeros: string, n: nat, after: string)
    requires forall i :: 0 <= i < |before| ==> Text.IsSpace(before[i])
    requires forall i :: 0 <= i < |after| ==> Text.IsSpace(after[i])
    requires forall i :: 0 <= i < |zeros| ==> zeros[i] == '0'
    ensures DeclaredLength(Some(before + (zeros + Decimal(n)) + after))
         == if |zeros + Decimal(n)| <= 12 then Some(n) else None
  {
    var digits := zeros + Decimal(n);
    NumberOfDecimal(zeros, n);
    assert !Text.IsSpace('0') && forall c :: '0' <= c <= '9' ==> !Text.IsSpace(c);
    hide Text.IsSpace, Decimal, Number;
    Text.TrimPadding(before, digits, after);
  }

  /** Twelve digits stay far below the integers a double represents exactly. */
  lemma {:induction false} NumberIsSmall(digits: string)
    requires IsDigits(digits) && |digits| <= 12
    ensures Number(digits) < Power10(|digits|) <= 1_000_000_000_000
  {
    if digits != "" {
      NumberIsSmall(digits[..|digits| - 1]);
      PowerGrows(|digits|);
    }
  }

  function Power10(n: nat): nat {
    if n == 0 then 1 else 10 * Power10(n - 1)
  }

  lemma {:induction false} PowerGrows(n: nat)
    requires n <= 12
    ensures Power10(n) <= 1_000_000_000_000
  {
    assert Power10(12) == 1_000_000_000_000;
    if n < 12 {
      PowerMonotone(n, 12);
    }
  }

  lemma {:induction false} PowerMonotone(m: nat, n: nat)
    requires m <= n
    ensures Power10(m) <= Power10(n)
    decreases n - m
  {
    if m < n {
      PowerMonotone(m + 1, n);
    }
  }

  // ---- the chunks of a stream ----------------------------------------------------------

  function Concat(chunks: seq<seq<Byte>>): seq<Byte> {
    if chunks == [] then [] else Concat(chunks[..|chunks| - 1]) + chunks[|chunks| - 1]
  }

  function Total(chunks: seq<seq<Byte>>): nat {
    if chunks == [] then 0 else Total(chunks[..|chunks| - 1]) + |chunks[|chunks| - 1]|
  }

  lemma {:induction false} TotalIsLength(chunks: seq<seq<Byte>>)
    ensures |Concat(chunks)| == Total(chunks)
  {
    if chunks != [] {
      TotalIsLength(chunks[..|chunks| - 1]);
    }
  }

  lemma {:induction false} TotalGrows(chunks: seq<seq<Byte>>, i: nat, j: nat)
    requires i <= j <= |chunks|
    ensures Total(chunks[..i]) <= Total(chunks[..j])
    decreases j
  {
    if i < j {
      TotalGrows(chunks, i, j - 1);
      assert chunks[..j][..j - 1] == chunks[..j - 1];
    }
  }

  /** The first prefix of the chunks that is over the cap has this many bytes. */
  ghost predicate FirstOver(chunks: seq<seq<Byte>>, maxBytes: nat, size: int) {
    exists k :: 0 < k <= |chunks| && Total(chunks[..k]) == size && size > maxBytes && Total(chunks[..k - 1]) <= maxBytes
  }

  /** There is at most one such size, and there is one exactly when the whole body is over the cap. */
  lemma FirstOverIsUnique(chunks: seq<seq<Byte>>, maxBytes: nat, a: int, b: int)
    requires FirstOver(chunks, maxBytes, a) && FirstOver(chunks, maxBytes, b)
    ensures a == b
    ensures Total(chunks) > maxBytes
  {
    hide Total;
    var i :| 0 < i <= |chunks| && Total(chunks[..i]) == a && a > maxBytes && Total(chunks[..i - 1]) <= maxBytes;
    var j :| 0 < j <= |chunks| && Total(chunks[..j]) == b && b > maxBytes && Total(chunks[..j - 1]) <= maxBytes;
    if i < j {
      TotalGrows(chunks, i, j - 1);
    } else if j < i {
      TotalGrows(chunks, j, i - 1);
    }
    TotalGrows(chunks, i, |chunks|);
    assert chunks[..|chunks|] == chunks;
  }

  /** `bytes.set(chunk, offset)`. */
  method Set(bytes: array<Byte>, chunk: seq<Byte>, offset: nat)
    requires offset + |chunk| <= bytes.Length
    modifies bytes
    ensures bytes[..offset] == old(bytes[..offset])
    ensures bytes[offset..offset + |chunk|] == chunk
    ensures bytes[offset + |chunk|..] == old(bytes[offset + |chunk|..])
  {
    for i := 0 to |chunk|
      invariant bytes[..offset] == old(bytes[..offset])
      invariant bytes[offset..offset + i] == chunk[..i]
      invariant bytes[offset + |chunk|..] == old(bytes[offset + |chunk|..])
    {
      bytes[offset + i] := chunk[i];
    }
  }

  /**
   Read the whole body, or say how much was declared or seen when it went over the cap. `held` are the
   chunks in memory at the end; they only ever grow, so this is also the most held at any time.
   */
  method ReadCapped(header: Option<string>, stream: Option<seq<seq<Byte>>>, maxBytes: nat := TUNNEL_MAX_BODY_BYTES)
    returns (body: Option<array<Byte>>, rejection: Rejection, ghost held: seq<seq<Byte>>)
    ensures Total(held) <= maxBytes
    ensures body.Some? <==>
      && (DeclaredLength(header).Some? ==> DeclaredLength(header).value <= maxBytes)
      && (stream.Some? ==> Total(stream.value) <= maxBytes)
    ensures body.Some? ==> fresh(body.value) && body.value[..] == if stream.Some? then Concat(stream.value) else []
    ensures body.Some? ==> held == if stream.Some? then stream.value else []
    ensures body.None? ==>
      if DeclaredLength(header).Some? && DeclaredLength(header).value > maxBytes then
        rejection.bodyBytes == DeclaredLength(header).value && held == []
      else stream.Some? && StopsAfter(stream.value, held, maxBytes, rejection.bodyBytes)
  {
    body, rejection, held := None, Rejection(0), [];
    var declared := DeclaredLength(header);
    if declared.Some? && declared.value > maxBytes {
      rejection := Rejection(declared.value);
      return;
    }
    if stream.None? {
      var empty := new Byte[0];
      body := Some(empty);
      return;
    }
    hide DeclaredLength, Total, Concat, StopsAfter;
    var chunks, size, over := ReadChunks(stream.value, maxBytes);
    held := chunks;
    if over {
      rejection := Rejection(size);
      return;
    }
    var bytes := Assemble(chunks, size);
    body := Some(bytes);
  }

  /** The chunks held are a prefix of the stream, and the next one takes the total over the cap. */
  ghost predicate StopsAfter(source: seq<seq<Byte>>, held: seq<seq<Byte>>, maxBytes: nat, size: int) {
    && |held| < |source| && held == source[..|held|] && Total(held) <= maxBytes
    && size == Total(source[..|held| + 1]) && size > maxBytes
  }

  /** A stop reports the first prefix sum over the cap. */
  lemma StopsAtFirstOver(source: seq<seq<Byte>>, held: seq<seq<Byte>>, maxBytes: nat, size: int)
    requires StopsAfter(source, held, maxBytes, size)
    ensures FirstOver(source, maxBytes, size)
  {
    hide Total;
    var k := |held| + 1;
    assert source[..k - 1] == held;
  }

  /** The first total over the cap. */
  function FirstTotalOver(chunks: seq<seq<Byte>>, maxBytes: nat): nat
    requires Total(chunks) > maxBytes
  {
    var front := chunks[..|chunks| - 1];
    if Total(front) > maxBytes then FirstTotalOver(front, maxBytes) else Total(chunks)
  }

  lemma {:induction false} FirstTotalIsFirstOver(chunks: seq<seq<Byte>>, maxBytes: nat)
    requires Total(chunks) > maxBytes
    ensures FirstOver(chunks, maxBytes, FirstTotalOver(chunks, maxBytes))
    decreases |chunks|
  {
    var n := |chunks|;
    assert chunks[..n] == chunks;
    var front := chunks[..n - 1];
    hide Total;
    if Total(front) > maxBytes {
      FirstTotalIsFirstOver(front, maxBytes);
      var size := FirstTotalOver(front, maxBytes);
      var k :| 0 < k <= |front| && Total(front[..k]) == size && size > maxBytes && Total(front[..k - 1]) <= maxBytes;
      assert front[..k] == chunks[..k] && front[..k - 1] == chunks[..k - 1];
    }
  }

  lemma {:induction false} StopIsFirstTotalOver(source: seq<seq<Byte>>, held: seq<seq<Byte>>, maxBytes: nat, size: int)
    requires StopsAfter(source, held, maxBytes, size)
    ensures Total(source) > maxBytes && FirstTotalOver(source, maxBytes) == size
    decreases |source|
  {
    hide Total;
    var k := |held| + 1;
    var front := source[..|source| - 1];
    assert source[..|source|] == source;
    TotalGrows(source, k, |source|);
    if k < |source| {
      assert front[..k] == source[..k] && front[..|held|] == source[..|held|];
      StopIsFirstTotalOver(front, held, maxBytes, size);
    } else {
      assert front == held;
    }
  }

  /** Keep chunks until the stream is done or the next one would go over the cap. */
  method ReadChunks(source: seq<seq<Byte>>, maxBytes: nat) returns (chunks: seq<seq<Byte>>, size: nat, over: bool)
    ensures over <==> Total(source) > maxBytes
    ensures over ==> StopsAfter(source, chunks, maxBytes, size)
    ensures !over ==> chunks == source && size == Total(source)
    ensures Total(chunks) <= maxBytes
  {
    chunks, size, over := [], 0, false;
    for i := 0 to |source|
      invariant chunks == source[..i] && size == Total(source[..i]) && size <= maxBytes
    {
      assert source[..i + 1][..i] == source[..i];
      size := size + |source[i]|;
      if size > maxBytes {
        assert Total(source[..i + 1]) == size;
        TotalGrows(source, i + 1, |source|);
        assert source[..|source|] == source;
        return chunks, size, true;
      }
      chunks := chunks + [source[i]];
    }
    assert source[..|source|] == source;
  }

  /** Copy the chunks one after the other into a new buffer. */
  method Assemble(chunks: seq<seq<Byte>>, size: nat) returns (bytes: array<Byte>)
    requires size == Total(chunks)
    ensures fresh(bytes) && bytes[..] == Concat(chunks)
  {
    bytes := new Byte[size];
    var offset := 0;
    TotalIsLength(chunks);
    for i := 0 to |chunks|
      invariant offset == Total(chunks[..i]) <= size
      invariant bytes[..offset] == Concat(chunks[..i])
      invariant fresh(bytes) && bytes.Length == size
    {
      assert chunks[..i + 1][..i] == chunks[..i];
      TotalGrows(chunks, i + 1, |chunks|);
      assert chunks[..|chunks|] == chunks;
      Set(bytes, chunks[i], offset);
      assert bytes[..offset + |chunks[i]|] == bytes[..offset] + bytes[offset..offset + |chunks[i]|];
      offset := offset + |chunks[i]|;
    }
    assert chunks[..|chunks|] == chunks;
    assert bytes[..] == bytes[..size];
  }
}
