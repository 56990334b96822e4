/** Normalising and validating webhook path prefixes (src/webhook-filter-path.ts). */
module WebhookFilterPath {
  import opened Wrappers
  import opened Text
  import RouteId
  import IngressUrls

  const WEBHOOK_FILTER_PATH_MAX_LENGTH := 256

  datatype RuleMode = Allow | Deny

  /** `path.replace(/\/+$/, "")`. */
  function WithoutTrailingSlashes(path: string): (r: string)
    ensures r <= path
    ensures r == "" || r[|r| - 1] != '/'
    ensures path != "" && path[|path| - 1] != '/' ==> r == path
  {
    if path != "" && path[|path| - 1] == '/' then WithoutTrailingSlashes(path[..|path| - 1]) else path
  }

  function WithLeadingSlash(path: string): string {
    if StartsWith(path, "/") then path else "/" + path
  }

  /** The path with query and fragment cut and outer whitespace removed. */
  function BarePath(path: string): string {
    Trim(Cut(Cut(path, '?'), '#'))
  }

  /** A bare path with its leading slash and without its trailing ones. */
  function Stem(bare: string): string {
    WithoutTrailingSlashes(WithLeadingSlash(bare))
  }

  function Rooted(bare: string): (r: string)
    ensures r != "" && r[0] == '/'
    ensures r == "/" || r[|r| - 1] != '/'
    ensures Stem(bare) != "" ==> r == Stem(bare)
  {
    if bare == "" || Stem(bare) == "" then "/" else Stem(bare)
  }

  /** `normalizeWebhookFilterPath`. */
  function Normalize(path: string): (r: string)
    ensures r != "" && r[0] == '/'
    ensures r == "/" || r[|r| - 1] != '/'
  {
    Rooted(BarePath(path))
  }

  predicate EndsInSpace(path: string) {
    path != "" && IsSpace(path[|path| - 1])
  }

  predicate Lacks(text: string, c: char) {
    forall i :: 0 <= i < |text| ==> text[i] != c
  }

  predicate HasNoSpace(text: string) {
    forall i :: 0 <= i < |text| ==> !IsSpace(text[i])
  }

  lemma CutLacks(path: string)
    ensures Lacks(Cut(Cut(path, '?'), '#'), '?') && Lacks(Cut(Cut(path, '?'), '#'), '#')
    ensures Cut(Cut(path, '?'), '#') <= path
  {
    CutIsPrefix(path, '?');
    CutIsPrefix(Cut(path, '?'), '#');
  }

  lemma RootedLacks(bare: string, c: char)
    requires Lacks(bare, c) && c != '/'
    ensures Lacks(Rooted(bare), c)
  {
  }

  /** Nothing left to cut: a normal form has no query or fragment. */
  lemma NormalFormHasNoQuery(path: string)
    ensures Lacks(Normalize(path), '?') && Lacks(Normalize(path), '#')
  {
    CutLacks(path);
    RootedLacks(BarePath(path), '?');
    RootedLacks(BarePath(path), '#');
  }

  lemma NothingToCut(path: string)
    requires Lacks(path, '?') && Lacks(path, '#')
    ensures BarePath(path) == Trim(path)
  {
    CutIsPrefix(path, '?');
    CutIsPrefix(path, '#');
  }

  lemma {:induction false} TrimEndKeepsFirst(text: string)
    requires text != "" && !IsSpace(text[0])
    ensures TrimEnd(text) != "" && TrimEnd(text)[0] == text[0]
    ensures EndsInSpace(text) ==> |TrimEnd(text)| < |text|
  {
    if EndsInSpace(text) {
      TrimEndKeepsFirst(text[..|text| - 1]);
    }
  }

  lemma RootedIsNoLonger(bare: string)
    requires bare != "" && bare[0] == '/'
    ensures |Rooted(bare)| <= |bare|
    ensures bare[|bare| - 1] != '/' ==> Rooted(bare) == bare
  {
    assert WithLeadingSlash(bare) == bare;
  }

  /** Rooting a path that already is rooted, and may still end in whitespace. */
  lemma RootedAgain(once: string)
    requires once != "" && once[0] == '/' && (once == "/" || once[|once| - 1] != '/')
    ensures Rooted(Trim(once)) == once <==> !EndsInSpace(once)
  {
    assert TrimStart(once) == once;
    TrimEndKeepsFirst(once);
    RootedIsNoLonger(Trim(once));
    if !EndsInSpace(once) {
      assert Trim(once) == once;
      if once == "/" {
        assert Rooted("/")[0] == '/';
      }
    }
  }

  /** Whitespace at this index, and slashes only behind it. */
  predicate SpaceThenSlashes(text: string, i: int) {
    0 <= i < |text| && IsSpace(text[i]) && forall j :: i < j < |text| ==> text[j] == '/'
  }

  /** Whitespace stands just before the trailing slashes. */
  predicate SpaceBeforeTrailingSlashes(text: string) {
    exists i :: 0 <= i < |text| && SpaceThenSlashes(text, i)
  }

  lemma SlashesAround(text: string, i: int)
    ensures SpaceThenSlashes(text + "/", i) <==> SpaceThenSlashes(text, i)
    ensures SpaceThenSlashes("/" + text, i + 1) <==> SpaceThenSlashes(text, i)
  {
    assert !IsSpace('/');
    hide IsSpace;
    var longer, rooted := text + "/", "/" + text;
    assert forall j :: 0 <= j < |text| ==> longer[j] == text[j] && rooted[j + 1] == text[j];
    assert forall j :: 0 < j < |rooted| ==> rooted[j] == text[j - 1];
  }

  lemma OneMoreSlash(front: string)
    ensures SpaceBeforeTrailingSlashes(front + "/") <==> SpaceBeforeTrailingSlashes(front)
  {
    assert forall i :: SpaceThenSlashes(front, i) ==> 0 <= i < |front|;
    forall i ensures SpaceThenSlashes(front + "/", i) <==> SpaceThenSlashes(front, i) {
      SlashesAround(front, i);
    }
    hide SpaceThenSlashes;
  }

  lemma NoTrailingSlash(text: string)
    requires text == "" || text[|text| - 1] != '/'
    ensures SpaceBeforeTrailingSlashes(text) <==> EndsInSpace(text)
  {
    hide IsSpace;
    if EndsInSpace(text) {
      assert SpaceThenSlashes(text, |text| - 1);
    }
  }

  lemma {:induction false} StrippingUncoversSpace(text: string)
    ensures EndsInSpace(WithoutTrailingSlashes(text)) <==> SpaceBeforeTrailingSlashes(text)
  {
    hide SpaceBeforeTrailingSlashes, EndsInSpace;
    if text != "" && text[|text| - 1] == '/' {
      var front := text[..|text| - 1];
      StrippingUncoversSpace(front);
      OneMoreSlash(front);
      assert text == front + "/";
    } else {
      NoTrailingSlash(text);
    }
  }

  lemma LeadingSlashHidesNothing(bare: string)
    ensures SpaceBeforeTrailingSlashes("/" + bare) <==> SpaceBeforeTrailingSlashes(bare)
  {
    assert forall i :: SpaceThenSlashes(bare, i) ==> 0 <= i < |bare|;
    hide SpaceThenSlashes;
    if i :| 0 <= i < |bare| && SpaceThenSlashes(bare, i) {
      SlashesAround(bare, i);
      assert SpaceThenSlashes("/" + bare, i + 1);
    }
    if i :| 0 <= i < |"/" + bare| && SpaceThenSlashes("/" + bare, i) {
      SlashesAround(bare, i - 1);
      assert SpaceThenSlashes(bare, i - 1);
    }
  }

  /** A second normalisation changes nothing exactly when the first one's result does not end in whitespace. */
  lemma NormalFormIsFixedIff(path: string)
    ensures Normalize(Normalize(path)) == Normalize(path) <==> !EndsInSpace(Normalize(path))
  {
    var once := Normalize(path);
    NormalFormHasNoQuery(path);
    NothingToCut(once);
    RootedAgain(once);
  }

  lemma EmptyStem()
    ensures Stem("") == ""
  {
    assert "/"[..0] == "";
    assert WithoutTrailingSlashes("/") == WithoutTrailingSlashes("");
  }

  lemma RootedEndsInSpaceIff(bare: string)
    ensures EndsInSpace(Rooted(bare)) <==> EndsInSpace(Stem(bare))
  {
    assert !EndsInSpace("/");
    EmptyStem();
    hide Stem, IsSpace;
  }

  lemma NormalFormEndsInSpaceIff(path: string)
    ensures EndsInSpace(Normalize(path)) <==> SpaceBeforeTrailingSlashes(BarePath(path))
  {
    hide BarePath, Rooted, EndsInSpace, SpaceBeforeTrailingSlashes, WithoutTrailingSlashes;
    var bare := BarePath(path);
    RootedEndsInSpaceIff(bare);
    StrippingUncoversSpace(WithLeadingSlash(bare));
    LeadingSlashHidesNothing(bare);
  }

  /**
   Normalising twice changes nothing exactly when no whitespace stands just before the trailing slashes
   of the bare path: `/a /` normalises to `/a ` and then to `/a`.
   */
  lemma NormalizeIdempotentIff(path: string)
    ensures Normalize(Normalize(path)) == Normalize(path) <==> !SpaceBeforeTrailingSlashes(BarePath(path))
  {
    hide Normalize, BarePath, SpaceBeforeTrailingSlashes;
    NormalFormIsFixedIff(path);
    NormalFormEndsInSpaceIff(path);
  }

  lemma TrimKeepsNoSpace(text: string)
    requires HasNoSpace(text)
    ensures HasNoSpace(Trim(text))
  {
  }

  /** Without whitespace anywhere, normalising is idempotent. */
  lemma NormalizeIdempotent(path: string)
    requires HasNoSpace(path)
    ensures Normalize(Normalize(path)) == Normalize(path)
  {
    hide Cut, Normalize, IsSpace;
    CutLacks(path);
    TrimKeepsNoSpace(Cut(Cut(path, '?'), '#'));
    assert HasNoSpace(BarePath(path));
    NormalizeIdempotentIff(path);
  }

  lemma TrailingSlashGoes(core: string)
    requires StartsWith(core, "/") && core[|core| - 1] != '/'
    ensures Stem(core + "/") == core
  {
    var path := core + "/";
    assert path[..|path| - 1] == core;
    assert WithLeadingSlash(path) == path;
  }

  /** A whole family of such paths: `/a ` for `core` gives the example above. */
  lemma NormalizingTwiceMovesOn(core: string)
    requires StartsWith(core, "/") && EndsInSpace(core) && Lacks(core, '?') && Lacks(core, '#')
    ensures Normalize(core + "/") == core && Normalize(core) != core
  {
    var path := core + "/";
    assert path[0] == '/' && path[|path| - 1] == '/' && !IsSpace('/');
    assert Lacks(path, '?') && Lacks(path, '#');
    NothingToCut(path);
    NothingToCut(core);
    TrailingSlashGoes(core);
    RootedAgain(core);
    hide Cut, TrimStart, TrimEnd, Stem, Rooted, IsSpace, Lacks;
  }

  // ---- what normalising takes away ---------------------------------------------------------

  predicate AllSpaces(text: string) {
    forall i :: 0 <= i < |text| ==> IsSpace(text[i])
  }

  predicate AllSlashes(text: string) {
    forall i :: 0 <= i < |text| ==> text[i] == '/'
  }

  /** Nothing, a query or a fragment. */
  predicate IsSuffix(tail: string) {
    tail == "" || tail[0] == '?' || tail[0] == '#'
  }

  lemma SuffixIsCut(text: string, tail: string)
    requires Lacks(text, '?') && Lacks(text, '#') && IsSuffix(tail)
    ensures Cut(Cut(text + tail, '?'), '#') == text
  {
    assert '?' !in text && '#' !in text;
    CutAfter(text, tail, '?');
    CutAfter(text, Cut(tail, '?'), '#');
    if tail != "" && tail[0] == '#' {
      assert Split(tail, '?')[0][0] == '#';
      assert Split(Cut(tail, '?'), '#')[0] == "";
    }
  }

  lemma {:induction false} SlashesGo(core: string, slashes: string)
    requires core != "" && core[|core| - 1] != '/' && AllSlashes(slashes)
    ensures WithoutTrailingSlashes(core + slashes) == core
  {
    if slashes == "" {
      assert core + slashes == core;
    } else {
      var whole := core + slashes;
      assert whole[|whole| - 1] == slashes[|slashes| - 1];
      assert whole[..|whole| - 1] == core + slashes[..|slashes| - 1];
      SlashesGo(core, slashes[..|slashes| - 1]);
    }
  }

  /**
   Normalising takes away query and fragment, whitespace around the path and slashes after it, adds the
   leading slash if there is none, and leaves everything else.
   */
  lemma NormalizeUndresses(before: string, core: string, slashes: string, after: string, tail: string)
    requires AllSpaces(before) && AllSlashes(slashes) && AllSpaces(after) && IsSuffix(tail)
    requires core != "" && !IsSpace(core[0]) && core[|core| - 1] != '/' && (slashes == "" ==> !EndsInSpace(core))
    requires Lacks(core, '?') && Lacks(core, '#')
    ensures Normalize(before + core + slashes + after + tail) == if core[0] == '/' then core else "/" + core
  {
    var path := before + core + slashes + after;
    var bare := core + slashes;
    assert !IsSpace('?') && !IsSpace('#') && !IsSpace('/');
    assert Lacks(path, '?') && Lacks(path, '#');
    hide IsSpace, Cut, Trim, WithoutTrailingSlashes;
    SuffixIsCut(path, tail);
    assert path == before + bare + after;
    assert bare[|bare| - 1] == if slashes == "" then core[|core| - 1] else '/';
    TrimPadding(before, bare, after);
    assert BarePath(path + tail) == bare;
    StemOfDressed(core, slashes);
  }

  lemma StemOfDressed(core: string, slashes: string)
    requires core != "" && core[|core| - 1] != '/' && AllSlashes(slashes)
    ensures Stem(core + slashes) == if core[0] == '/' then core else "/" + core
  {
    var bare := core + slashes;
    SlashesGo(core, slashes);
    SlashesGo("/" + core, slashes);
    assert "/" + bare == "/" + core + slashes;
    assert StartsWith(bare, "/") <==> core[0] == '/';
  }

  /** A path of slashes and whitespace around them is the root. */
  lemma NothingIsTheRoot(before: string, slashes: string, after: string, tail: string)
    requires AllSpaces(before) && AllSlashes(slashes) && AllSpaces(after) && IsSuffix(tail)
    ensures Normalize(before + slashes + after + tail) == "/"
  {
    var path := before + slashes + after;
    assert !IsSpace('?') && !IsSpace('#') && !IsSpace('/');
    assert Lacks(path, '?') && Lacks(path, '#');
    hide IsSpace, Cut, WithoutTrailingSlashes;
    SuffixIsCut(path, tail);
    if slashes == "" {
      assert AllSpaces(path);
      OnlySpaces(path);
    } else {
      TrimPadding(before, slashes, after);
      OnlySlashes(slashes);
    }
  }

  lemma {:induction false} OnlySpaces(text: string)
    requires AllSpaces(text)
    ensures Trim(text) == ""
  {
    if text != "" {
      assert TrimStart(text) == TrimStart(text[1..]);
      OnlySpaces(text[1..]);
    }
  }

  lemma {:induction false} OnlySlashes(slashes: string)
    requires AllSlashes(slashes)
    ensures WithoutTrailingSlashes(slashes) == ""
  {
    if slashes != "" {
      OnlySlashes(slashes[..|slashes| - 1]);
    }
  }

  predicate HasDoubleSlash(path: string) {
    exists i :: 0 <= i < |path| - 1 && path[i] == '/' && path[i + 1] == '/'
  }

  predicate IsSchemeChar(c: char) {
    RouteId.IsLetterOrDigit(c) || c == '+' || c == '.' || c == '-'
  }

  /** `/^[a-zA-Z][a-zA-Z0-9+.-]*:/`. */
  predicate HasScheme(path: string) {
    && path != "" && ('a' <= path[0] <= 'z' || 'A' <= path[0] <= 'Z')
    && exists i :: 0 < i < |path| && path[i] == ':' && forall j :: 0 < j < i ==> IsSchemeChar(path[j])
  }

  /** `validateWebhookFilterPath`; `probe` is the scanner-probe test. */
  function Validate(path: string, probe: string -> bool): (r: Option<string>)
    ensures r.Some? ==> r.value == Normalize(path) && r.value != "/" && |r.value| <= WEBHOOK_FILTER_PATH_MAX_LENGTH
  {
    if path == "" || |path| > WEBHOOK_FILTER_PATH_MAX_LENGTH then None
    else if '\r' in path || '\n' in path || '\0' in path || '*' in path || '?' in path || '#' in path then None
    else if HasScheme(path) || HasDoubleSlash(path) then None
    else if !StartsWith(path, "/") then None
    else if IngressUrls.DotDotWithin(path, IngressUrls.MAX_DECODE_ROUNDS) || probe(path) then None
    else
      var normalized := Normalize(path);
      if normalized == "/" || |normalized| > WEBHOOK_FILTER_PATH_MAX_LENGTH then None else Some(normalized)
  }

  /** A slash directly after a slash. */
  ghost predicate Doubled(path: string) {
    exists i :: 0 < i < |path| && path[i - 1] == '/' && path[i] == '/'
  }

  /**
   Exactly which paths are valid, and each as its normal form. Two of the checks never decide: a path with
   its leading slash has no scheme, and its normal form is no longer than the path.
   */
  lemma ValidateIff(path: string, probe: string -> bool)
    ensures Validate(path, probe).Some? <==>
      && 0 < |path| <= 256 && path[0] == '/' && !Doubled(path)
      && (forall c :: c in path ==> c !in {'\r', '\n', '\0', '*', '?', '#'})
      && !IngressUrls.DotDotWithin(path, 4) && !probe(path) && Normalize(path) != "/"
    ensures Validate(path, probe).Some? ==> Validate(path, probe).value == Normalize(path)
  {
    hide Normalize, IngressUrls.DotDotWithin;
    assert HasDoubleSlash(path) <==> Doubled(path) by {
      if i :| 0 <= i < |path| - 1 && path[i] == '/' && path[i + 1] == '/' {
        assert path[i + 1 - 1] == '/' && path[i + 1] == '/';
      }
    }
    if path != "" && path[0] == '/' && '?' !in path && '#' !in path {
      RootedPathIsCutShort(path);
    }
  }

  // ---- validating a stored path again --------------------------------------------------

  lemma TrimIsCutShort(path: string)
    requires StartsWith(path, "/")
    ensures Trim(path) <= path && StartsWith(Trim(path), "/")
  {
    assert TrimStart(path) == path;
    TrimEndKeepsFirst(path);
  }

  lemma RootedIsCutShort(bare: string)
    requires StartsWith(bare, "/")
    ensures Rooted(bare) <= bare
  {
    assert WithLeadingSlash(bare) == bare;
  }

  lemma RootedPathIsCutShort(path: string)
    requires StartsWith(path, "/") && Lacks(path, '?') && Lacks(path, '#')
    ensures Normalize(path) <= path
  {
    hide Trim, BarePath, Rooted, Lacks;
    NothingToCut(path);
    TrimIsCutShort(path);
    RootedIsCutShort(Trim(path));
  }

  /** What `Validate` checks before it decodes and probes. */
  predicate WellFormed(path: string) {
    && 0 < |path| <= WEBHOOK_FILTER_PATH_MAX_LENGTH
    && '\r' !in path && '\n' !in path && '\0' !in path && '*' !in path && '?' !in path && '#' !in path
    && !HasScheme(path) && !HasDoubleSlash(path) && StartsWith(path, "/")
  }

  lemma PrefixIsWellFormed(path: string, prefix: string)
    requires WellFormed(path) && prefix <= path && prefix != ""
    ensures WellFormed(prefix)
  {
    assert forall i :: 0 <= i < |prefix| ==> prefix[i] == path[i] && prefix[i] in path;
    assert prefix[0] == '/';
  }

  lemma ValidateWellFormed(path: string, probe: string -> bool)
    requires WellFormed(path)
    ensures Validate(path, probe) ==
      if IngressUrls.DotDotWithin(path, IngressUrls.MAX_DECODE_ROUNDS) || probe(path) then None
      else if Normalize(path) == "/" || |Normalize(path)| > WEBHOOK_FILTER_PATH_MAX_LENGTH then None
      else Some(Normalize(path))
  {
    hide Normalize, IngressUrls.DotDotWithin, HasScheme, HasDoubleSlash;
  }

  lemma ValidIsWellFormed(path: string, probe: string -> bool)
    requires Validate(path, probe).Some?
    ensures WellFormed(path)
  {
    hide Normalize, IngressUrls.DotDotWithin, HasScheme, HasDoubleSlash;
  }

  lemma StoredPathIsWellFormed(path: string, probe: string -> bool)
    requires Validate(path, probe).Some?
    ensures WellFormed(Normalize(path)) && Normalize(path) != "/"
  {
    hide Normalize, HasScheme, HasDoubleSlash, IngressUrls.DotDotWithin;
    ValidIsWellFormed(path, probe);
    RootedPathIsCutShort(path);
    PrefixIsWellFormed(path, Normalize(path));
  }

  /**
   A stored path validates as itself exactly when it does not end in whitespace, is no scanner probe and
   shows no `..` segment, although the path it was stored for passed all checks.
   */
  lemma StoredPathIsValidIff(path: string, probe: string -> bool)
    requires Validate(path, probe).Some?
    ensures var stored := Normalize(path);
      Validate(stored, probe) == Some(stored) <==>
        !EndsInSpace(stored) && !probe(stored) && !IngressUrls.DotDotWithin(stored, IngressUrls.MAX_DECODE_ROUNDS)
  {
    hide Normalize, IngressUrls.DotDotWithin, WellFormed, Validate;
    StoredPathIsWellFormed(path, probe);
    NormalFormIsFixedIff(path);
    ValidateWellFormed(Normalize(path), probe);
    assert WellFormed(Normalize(path)) ==> |Normalize(path)| <= WEBHOOK_FILTER_PATH_MAX_LENGTH by {
      LengthOfWellFormed(Normalize(path));
    }
  }

  lemma LengthOfWellFormed(path: string)
    ensures WellFormed(path) ==> |path| <= WEBHOOK_FILTER_PATH_MAX_LENGTH
  {
  }

  // ---- three accepted paths whose stored form is not accepted ------------------------------

  lemma TrailingSpaceGoes(core: string)
    requires StartsWith(core, "/") && core[|core| - 1] != '/' && !EndsInSpace(core) && Lacks(core, '?')
    requires Lacks(core, '#')
    ensures Normalize(core + " ") == core
  {
    hide Trim, BarePath, Rooted;
    var path := core + " ";
    NothingToCut(path);
    assert "" + core + " " == path;
    TrimPadding("", core, " ");
    RootedIsNoLonger(core);
  }

  /** `/a /` is stored as `/a `. */
  lemma SlashAfterSpaceIsStored(probe: string -> bool)
    requires !probe("/a /")
    ensures Validate("/a /", probe) == Some("/a ") && EndsInSpace("/a ")
  {
    hide Normalize, Validate, IngressUrls.DotDotWithin;
    assert "/a " + "/" == "/a /" && "/" + "a " + "/" + "" == "/a /";
    NormalizingTwiceMovesOn("/a ");
    IngressUrls.TwoPlainSegments("a ", "", IngressUrls.MAX_DECODE_ROUNDS);
    assert WellFormed("/a /");
    ValidateWellFormed("/a /", probe);
  }

  /** One space at the end gets past checks that the path without it would fail. */
  lemma PathBeforeSpaceIsStored(core: string, probe: string -> bool)
    requires WellFormed(core + " ") && |core| > 1 && core[|core| - 1] != '/' && !EndsInSpace(core)
    requires !IngressUrls.DotDotWithin(core + " ", IngressUrls.MAX_DECODE_ROUNDS) && !probe(core + " ")
    ensures Validate(core + " ", probe) == Some(core)
    ensures probe(core) || IngressUrls.DotDotWithin(core, IngressUrls.MAX_DECODE_ROUNDS) ==> Validate(core, probe).None?
  {
    hide Normalize, Validate, IngressUrls.DotDotWithin, IsSpace;
    var path := core + " ";
    assert core == path[..|core|] && core[0] == path[0] == '/';
    PrefixIsWellFormed(path, core);
    ValidateWellFormed(path, probe);
    ValidateWellFormed(core, probe);
    assert forall c :: c in core ==> c in path;
    hide HasScheme, HasDoubleSlash;
    TrailingSpaceGoes(core);
  }

  /** `/a/.. ` is stored as `/a/..`. */
  lemma DotDotBeforeSpaceIsStored(probe: string -> bool)
    requires !probe("/a/.. ")
    ensures Validate("/a/.. ", probe) == Some("/a/..") && !EndsInSpace("/a/..")
    ensures IngressUrls.DotDotWithin("/a/..", IngressUrls.MAX_DECODE_ROUNDS) && Validate("/a/..", probe).None?
  {
    hide Normalize, Validate, IngressUrls.DotDotWithin;
    assert "/a/.." + " " == "/a/.. " && "/" + "a" + "/" + ".. " == "/a/.. " && "/" + "a" + "/" + ".." == "/a/..";
    IngressUrls.TwoPlainSegments("a", ".. ", IngressUrls.MAX_DECODE_ROUNDS);
    IngressUrls.TwoPlainSegments("a", "..", IngressUrls.MAX_DECODE_ROUNDS);
    assert WellFormed("/a/.. ");
    PathBeforeSpaceIsStored("/a/..", probe);
  }

  /** `/x.php ` is stored as `/x.php`, whatever the probe test says of that. */
  lemma ProbeBeforeSpaceIsStored(probe: string -> bool)
    requires !probe("/x.php ")
    ensures Validate("/x.php ", probe) == Some("/x.php")
    ensures probe("/x.php") ==> Validate("/x.php", probe).None?
  {
    hide Normalize, Validate, IngressUrls.DotDotWithin;
    assert "/x.php" + " " == "/x.php " && "/" + "x.php " == "/x.php ";
    IngressUrls.PlainSegment("x.php ", IngressUrls.MAX_DECODE_ROUNDS);
    assert WellFormed("/x.php ");
    PathBeforeSpaceIsStored("/x.php", probe);
  }

  function ValidateMode(mode: string): Option<RuleMode> {
    if mode == "allow" then Some(Allow) else if mode == "deny" then Some(Deny) else None
  }

  datatype EnvironmentScope = BadEnvironment | AnyEnvironment | OnlyEnvironment(id: string)

  /** `parseWebhookFilterEnvironmentId`. */
  function ParseEnvironment(value: Option<string>): EnvironmentScope {
    if value.None? || Trim(value.value) == "" then AnyEnvironment
    else if RouteId.IsAllowedEnvironmentId(Trim(value.value)) then OnlyEnvironment(Trim(value.value))
    else BadEnvironment
  }
}
