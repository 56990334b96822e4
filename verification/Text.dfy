/** The string operations the router's path and token code relies on. */
module Text {
  /** `text.split(separator)` for a one-character separator. */
  function Split(text: string, separator: char): (parts: seq<string>)
    ensures parts != []
  {
    if text == "" then [""]
    else
      var rest := Split(text[1..], separator);
      if text[0] == separator then [""] + rest
      else [[text[0]] + rest[0]] + rest[1..]
  }

  /** `parts.join(separator)`. */
  function Join(parts: seq<string>, separator: char): string
    requires parts != []
  {
    if |parts| == 1 then parts[0] else parts[0] + [separator] + Join(parts[1..], separator)
  }

  function Cut(text: string, separator: char): string {
    Split(text, separator)[0]
  }

  lemma {:induction false} JoinSplit(text: string, separator: char)
    ensures Join(Split(text, separator), separator) == text
  {
    if text != "" {
      JoinSplit(text[1..], separator);
      var rest := Split(text[1..], separator);
      var parts := Split(text, separator);
      if text[0] == separator {
        assert parts[1..] == rest;
      } else {
        assert parts[1..] == rest[1..];
      }
      assert text == [text[0]] + text[1..];
    }
  }

  lemma {:induction false} SplitAppend(left: string, right: string, separator: char)
    ensures Split(left + [separator] + right, separator) == Split(left, separator) + Split(right, separator)
  {
    var whole := left + [separator] + right;
    if left == "" {
      assert whole[1..] == right;
    } else {
      assert whole[1..] == left[1..] + [separator] + right;
      SplitAppend(left[1..], right, separator);
    }
  }

  lemma {:induction false} SplitWhole(text: string, separator: char)
    requires separator !in text
    ensures Split(text, separator) == [text]
  {
    if text != "" {
      assert forall c :: c in text[1..] ==> c in text;
      SplitWhole(text[1..], separator);
      assert text == [text[0]] + text[1..];
    }
  }

  lemma {:induction false} SplitJoin(parts: seq<string>, separator: char)
    requires parts != []
    requires forall i :: 0 <= i < |parts| ==> separator !in parts[i]
    ensures Split(Join(parts, separator), separator) == parts
  {
    SplitWhole(parts[0], separator);
    if |parts| > 1 {
      SplitJoin(parts[1..], separator);
      SplitAppend(parts[0], Join(parts[1..], separator), separator);
      assert parts == [parts[0]] + parts[1..];
    }
  }

  lemma {:induction false} JoinAppend(left: seq<string>, right: seq<string>, separator: char)
    requires left != [] && right != []
    ensures Join(left + right, separator) == Join(left, separator) + [separator] + Join(right, separator)
  {
    if |left| == 1 {
      assert (left + right)[1..] == right;
    } else {
      assert (left + right)[1..] == left[1..] + right;
      JoinAppend(left[1..], right, separator);
    }
  }

  lemma {:induction false} PartsLackSeparator(text: string, separator: char)
    ensures forall part :: part in Split(text, separator) ==> separator !in part
  {
    if text != "" {
      PartsLackSeparator(text[1..], separator);
      var rest := Split(text[1..], separator);
      assert rest[0] in rest;
      forall part | part in Split(text, separator) ensures separator !in part {
        if text[0] != separator && part == [text[0]] + rest[0] {
          assert forall c :: c in part ==> c == text[0] || c in rest[0];
        }
      }
    }
  }

  lemma {:induction false} CutIsPrefix(text: string, separator: char)
    ensures Cut(text, separator) <= text
    ensures separator !in Cut(text, separator)
    ensures separator !in text ==> Cut(text, separator) == text
  {
    PartsLackSeparator(text, separator);
    assert Cut(text, separator) in Split(text, separator);
    JoinSplit(text, separator);
    if separator !in text {
      SplitWhole(text, separator);
    }
  }

  /** A stretch of the text between separators, or an end of it. */
  predicate IsStretch(text: string, separator: char, i: int, j: int) {
    && 0 <= i <= j <= |text|
    && (i == 0 || text[i - 1] == separator) && (j == |text| || text[j] == separator)
    && separator !in text[i..j]
  }

  /** The parts of a text are exactly the stretches between its separators. */
  lemma PartIff(text: string, separator: char, part: string)
    ensures part in Split(text, separator) <==> exists i, j :: IsStretch(text, separator, i, j) && text[i..j] == part
  {
    if part in Split(text, separator) {
      var i, j := PartIsStretch(text, separator, part);
    }
    if i, j :| IsStretch(text, separator, i, j) && text[i..j] == part {
      StretchIsPart(text, separator, i, j);
    }
  }

  /** What stands before a part, with its separator. */
  function InFront(parts: seq<string>, separator: char): string {
    if parts == [] then "" else Join(parts, separator) + [separator]
  }

  function Behind(parts: seq<string>, separator: char): string {
    if parts == [] then "" else [separator] + Join(parts, separator)
  }

  lemma JoinAround(left: seq<string>, part: string, right: seq<string>, separator: char)
    ensures Join(left + [part] + right, separator) == InFront(left, separator) + part + Behind(right, separator)
  {
    var tail := [part] + right;
    assert left + [part] + right == left + tail;
    if right != [] {
      JoinAppend([part], right, separator);
    }
    if left != [] {
      JoinAppend(left, tail, separator);
    }
  }

  lemma PartIsStretch(text: string, separator: char, part: string) returns (i: int, j: int)
    requires part in Split(text, separator)
    ensures IsStretch(text, separator, i, j) && text[i..j] == part
  {
    JoinSplit(text, separator);
    PartsLackSeparator(text, separator);
    var parts := Split(text, separator);
    hide Split, Join;
    var k :| 0 <= k < |parts| && parts[k] == part;
    var left, right := parts[..k], parts[k + 1..];
    assert parts == left + [part] + right;
    JoinAround(left, part, right, separator);
    i, j := |InFront(left, separator)|, |InFront(left, separator)| + |part|;
    StretchAt(InFront(left, separator), part, Behind(right, separator), separator);
  }

  lemma StretchAt(before: string, part: string, after: string, separator: char)
    requires before == "" || before[|before| - 1] == separator
    requires after == "" || after[0] == separator
    requires separator !in part
    ensures var text := before + part + after;
      var i := |before|;
      IsStretch(text, separator, i, i + |part|) && text[i..i + |part|] == part
  {
    var text, i := before + part + after, |before|;
    assert text[i..i + |part|] == part;
    assert i > 0 ==> text[i - 1] == before[i - 1];
    assert after != "" ==> text[i + |part|] == after[0];
  }

  lemma StretchIsPart(text: string, separator: char, i: int, j: int)
    requires IsStretch(text, separator, i, j)
    ensures text[i..j] in Split(text, separator)
  {
    hide Split;
    TailHasPart(text[i..], separator, j - i);
    assert text[i..][..j - i] == text[i..j];
    if i > 0 {
      SplitAppend(text[..i - 1], text[i..], separator);
      assert text == text[..i - 1] + [separator] + text[i..];
    } else {
      assert text[i..] == text;
    }
  }

  lemma TailHasPart(tail: string, separator: char, n: int)
    requires 0 <= n <= |tail| && separator !in tail[..n] && (n == |tail| || tail[n] == separator)
    ensures tail[..n] in Split(tail, separator)
  {
    hide Split;
    SplitWhole(tail[..n], separator);
    if n < |tail| {
      SplitAppend(tail[..n], tail[n + 1..], separator);
      assert tail == tail[..n] + [separator] + tail[n + 1..];
    } else {
      assert tail[..n] == tail;
    }
  }

  /** Text without the separator stays in front of the first cut. */
  lemma {:induction false} CutAfter(text: string, tail: string, separator: char)
    requires separator !in text
    ensures Cut(text + tail, separator) == text + Cut(tail, separator)
  {
    if text == "" {
      assert text + tail == tail;
    } else {
      assert (text + tail)[1..] == text[1..] + tail;
      assert forall c :: c in text[1..] ==> c in text;
      CutAfter(text[1..], tail, separator);
    }
  }

  /** Characters removed by `String.prototype.trim`. */
  predicate IsSpace(c: char) {
    || '\U{9}' <= c <= '\U{d}' || c == ' ' || c == '\U{a0}' || c == '\U{1680}'
    || '\U{2000}' <= c <= '\U{200a}' || c == '\U{2028}' || c == '\U{2029}'
    || c == '\U{202f}' || c == '\U{205f}' || c == '\U{3000}' || c == '\U{feff}'
  }

  function TrimStart(text: string): (r: string)
    ensures |r| <= |text| && r == text[|text| - |r|..]
    ensures r == "" || !IsSpace(r[0])
    ensures text != "" && !IsSpace(text[0]) ==> r == text
  {
    if text != "" && IsSpace(text[0]) then TrimStart(text[1..]) else text
  }

  function TrimEnd(text: string): (r: string)
    ensures r <= text
    ensures r == "" || !IsSpace(r[|r| - 1])
    ensures text != "" && !IsSpace(text[|text| - 1]) ==> r == text
  {
    if text != "" && IsSpace(text[|text| - 1]) then TrimEnd(text[..|text| - 1]) else text
  }

  /** `text.trim()`. */
  function Trim(text: string): string {
    TrimEnd(TrimStart(text))
  }

  lemma {:induction false} TrimStartPadding(padding: string, core: string)
    requires forall i :: 0 <= i < |padding| ==> IsSpace(padding[i])
    requires core != "" && !IsSpace(core[0])
    ensures TrimStart(padding + core) == core
  {
    if padding == "" {
      assert padding + core == core;
    } else {
      assert (padding + core)[1..] == padding[1..] + core;
      TrimStartPadding(padding[1..], core);
    }
  }

  lemma {:induction false} TrimEndPadding(core: string, padding: string)
    requires forall i :: 0 <= i < |padding| ==> IsSpace(padding[i])
    requires core != "" && !IsSpace(core[|core| - 1])
    ensures TrimEnd(core + padding) == core
  {
    if padding == "" {
      assert core + padding == core;
    } else {
      var whole := core + padding;
      assert whole[..|whole| - 1] == core + padding[..|padding| - 1];
      TrimEndPadding(core, padding[..|padding| - 1]);
    }
  }

  lemma TrimPadding(before: string, core: string, after: string)
    requires forall i :: 0 <= i < |before| ==> IsSpace(before[i])
    requires forall i :: 0 <= i < |after| ==> IsSpace(after[i])
    requires core != "" && !IsSpace(core[0]) && !IsSpace(core[|core| - 1])
    ensures Trim(before + core + after) == core
  {
    assert before + core + after == before + (core + after);
    TrimStartPadding(before, core + after);
    TrimEndPadding(core, after);
  }

  predicate StartsWith(text: string, prefix: string) {
    prefix <= text
  }

  function Replace(text: string, from: char, to: char): (r: string)
    ensures |r| == |text|
    ensures forall i :: 0 <= i < |text| ==> r[i] == if text[i] == from then to else text[i]
  {
    seq(|text|, i requires 0 <= i < |text| => if text[i] == from then to else text[i])
  }
}
