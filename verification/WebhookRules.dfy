/** The stored webhook fan-out rules of all routes (src/webhook-fanout-settings-storage.ts). */
module WebhookRules {
  import opened Wrappers
  import opened WebhookFilterPath
  import RouteId
  import Text
  import IngressUrls
  import WebhookPathFilter
  import CappedLog

  const WEBHOOK_FANOUT_RULE_LIMIT := 32

  /** The primary key of a rule; "" stands for no environment scope. */
  datatype RuleKey = RuleKey(routeId: string, mode: RuleMode, remainingPath: string, environmentKey: string)

  /** What callers pass to insert or delete a rule. */
  datatype RuleArguments = RuleArguments(routeId: string, mode: string, remainingPath: string,
                                         environmentId: Option<string>)

  datatype WriteError = InvalidRouteId | InvalidMode | InvalidPath | InvalidEnvironmentId | RuleLimit

  datatype ParsedKey = Parsed(key: RuleKey) | Refused(error: WriteError)

  type Rules = map<RuleKey, int>

  function EnvironmentKey(scope: EnvironmentScope): string {
    if scope.OnlyEnvironment? then scope.id else ""
  }

  /** The checks of the arguments, in the order in which they fail; `probe` is the scanner-probe test. */
  function Parse(a: RuleArguments, probe: string -> bool): ParsedKey {
    if !RouteId.IsAllowedRouteId(a.routeId) then Refused(InvalidRouteId)
    else
      var mode, path := ValidateMode(a.mode), Validate(a.remainingPath, probe);
      var scope := ParseEnvironment(a.environmentId);
      if mode.None? then Refused(InvalidMode)
      else if path.None? then Refused(InvalidPath)
      else if scope.BadEnvironment? then Refused(InvalidEnvironmentId)
      else Parsed(RuleKey(a.routeId, mode.value, path.value, EnvironmentKey(scope)))
  }

  function RulesOf(rules: Rules, routeId: string): set<RuleKey> {
    set key | key in rules && key.routeId == routeId
  }

  predicate HasRoom(rules: Rules, key: RuleKey) {
    key in rules || |RulesOf(rules, key.routeId)| < WEBHOOK_FANOUT_RULE_LIMIT
  }

  datatype Op = Upsert(arguments: RuleArguments, now: int) | Delete(arguments: RuleArguments)

  /** What an operation comes to once its arguments are checked. */
  datatype KeyOp = Put(key: RuleKey, now: int) | Erase(key: RuleKey) | Nothing

  function Resolve(op: Op, probe: string -> bool): KeyOp {
    var parsed := Parse(op.arguments, probe);
    if parsed.Refused? then Nothing
    else if op.Upsert? then Put(parsed.key, op.now) else Erase(parsed.key)
  }

  /** A new rule needs room. */
  function ApplyKey(rules: Rules, op: KeyOp): Rules {
    match op
    case Put(key, now) => if HasRoom(rules, key) then rules[key := now] else rules
    case Erase(key) => rules - {key}
    case Nothing => rules
  }

  /** The rules after an operation; a refused one changes nothing. */
  function Apply(rules: Rules, op: Op, probe: string -> bool): Rules {
    ApplyKey(rules, Resolve(op, probe))
  }

  function ApplyAll(rules: Rules, ops: seq<KeyOp>): Rules
    decreases |ops|
  {
    if ops == [] then rules else ApplyAll(ApplyKey(rules, ops[0]), ops[1..])
  }

  // ---- what the arguments say ------------------------------------------------------------

  /** The environment a rule is for, "" for all; None for a malformed one. */
  function ScopeGiven(value: Option<string>): Option<string> {
    var id := if value.None? then "" else Text.Trim(value.value);
    if id == "" || RouteId.IsAllowedEnvironmentId(id) then Some(id) else None
  }

  /**
   Exactly which arguments name a rule, and which one; the first of them that is wrong, in this order,
   names the error.
   */
  lemma ParseIff(a: RuleArguments, probe: string -> bool)
    ensures var path, scope := Validate(a.remainingPath, probe), ScopeGiven(a.environmentId);
      var modeOk := a.mode == "allow" || a.mode == "deny";
      match Parse(a, probe)
      case Parsed(key) =>
        && RouteId.IsAllowedRouteId(a.routeId) && modeOk && path.Some? && scope.Some?
        && key.routeId == a.routeId && (key.mode == Allow <==> a.mode == "allow")
        && key.remainingPath == Normalize(a.remainingPath) && key.environmentKey == scope.value
      case Refused(error) =>
        if !RouteId.IsAllowedRouteId(a.routeId) then error == InvalidRouteId
        else if !modeOk then error == InvalidMode
        else if path.None? then error == InvalidPath
        else error == InvalidEnvironmentId && scope.None?
  {
    hide Validate, Text.Trim, RouteId.IsAllowedRouteId, RouteId.IsAllowedEnvironmentId;
    ValidIsNormal(a.remainingPath, probe);
  }

  lemma ValidIsNormal(path: string, probe: string -> bool)
    ensures Validate(path, probe).Some? ==> Validate(path, probe).value == Normalize(path)
  {
  }

  /** A rule that was accepted filters fan-outs as it was given: its mode, its path, and its environment or all. */
  lemma RuleIsAsGiven(a: RuleArguments, probe: string -> bool)
    requires Parse(a, probe).Parsed?
    ensures var rule := AsRule(Parse(a, probe).key);
      && (rule.mode == Allow <==> a.mode == "allow") && (rule.mode == Deny <==> a.mode == "deny")
      && rule.remainingPath == Normalize(a.remainingPath)
      && rule.environmentId == if a.environmentId.None? || Text.Trim(a.environmentId.value) == "" then None
                               else Some(Text.Trim(a.environmentId.value))
  {
    hide Parse, Validate, Text.Trim, RouteId.IsAllowedRouteId, RouteId.IsAllowedEnvironmentId, Normalize;
    ParseIff(a, probe);
  }

  // ---- laws over any sequence of operations ----------------------------------------------

  ghost predicate WithinLimit(rules: Rules) {
    forall routeId :: |RulesOf(rules, routeId)| <= 32
  }

  ghost predicate OnRoute(op: KeyOp, routeId: string) {
    op.Nothing? || op.key.routeId == routeId
  }

  /** An operation acts on the route it names, and on no other. */
  lemma OperatesOnItsRoute(op: Op, probe: string -> bool)
    ensures OnRoute(Resolve(op, probe), op.arguments.routeId)
  {
  }

  lemma ApplyKeepsLimit(rules: Rules, op: KeyOp)
    requires WithinLimit(rules)
    ensures WithinLimit(ApplyKey(rules, op))
  {
    var after := ApplyKey(rules, op);
    forall routeId ensures |RulesOf(after, routeId)| <= WEBHOOK_FANOUT_RULE_LIMIT {
      if op.Put? && op.key !in rules && routeId == op.key.routeId && HasRoom(rules, op.key) {
        assert RulesOf(after, routeId) == RulesOf(rules, routeId) + {op.key};
      } else {
        assert RulesOf(after, routeId) <= RulesOf(rules, routeId);
        CappedLog.SubsetSize(RulesOf(after, routeId), RulesOf(rules, routeId));
      }
    }
  }

  /** No sequence of operations stores more than the limit for any route. */
  lemma {:induction false} LimitHolds(rules: Rules, ops: seq<KeyOp>)
    requires WithinLimit(rules)
    ensures WithinLimit(ApplyAll(rules, ops))
    decreases |ops|
  {
    if ops != [] {
      ApplyKeepsLimit(rules, ops[0]);
      LimitHolds(ApplyKey(rules, ops[0]), ops[1..]);
    }
  }

  /** No sequence of operations on other routes changes a rule, or when it was stored. */
  lemma {:induction false} RoutesAreIsolated(rules: Rules, ops: seq<KeyOp>, key: RuleKey)
    requires forall i :: 0 <= i < |ops| ==> !OnRoute(ops[i], key.routeId) || ops[i].Nothing?
    ensures key in ApplyAll(rules, ops) <==> key in rules
    ensures key in rules ==> ApplyAll(rules, ops)[key] == rules[key]
    decreases |ops|
  {
    if ops != [] {
      RoutesAreIsolated(ApplyKey(rules, ops[0]), ops[1..], key);
    }
  }

  /** Storing an existing rule again always succeeds, at the limit too, and only moves its time. */
  lemma UpsertAgain(rules: Rules, a: RuleArguments, now: int, probe: string -> bool)
    requires Parse(a, probe).Parsed? && Parse(a, probe).key in rules
    ensures Apply(rules, Upsert(a, now), probe) == rules[Parse(a, probe).key := now]
    ensures |Apply(rules, Upsert(a, now), probe)| == |rules|
  {
    var after := rules[Parse(a, probe).key := now];
    assert after.Keys == rules.Keys;
    assert |after| == |after.Keys| && |rules| == |rules.Keys|;
  }

  /** Inserting a new rule and deleting it with the same arguments restores the table, whether or not there was room. */
  lemma InsertThenDelete(rules: Rules, a: RuleArguments, now: int, probe: string -> bool)
    requires Parse(a, probe).Parsed? ==> Parse(a, probe).key !in rules
    ensures Apply(Apply(rules, Upsert(a, now), probe), Delete(a), probe) == rules
  {
  }

  function ModeName(mode: RuleMode): string {
    if mode == Allow then "allow" else "deny"
  }

  lemma ModeParsesAgain(mode: RuleMode)
    ensures ValidateMode(ModeName(mode)) == Some(mode)
  {
  }

  /** Passing a stored rule back as arguments. */
  function AsListed(key: RuleKey): RuleArguments {
    RuleArguments(key.routeId, ModeName(key.mode), key.remainingPath,
                  if key.environmentKey == "" then None else Some(key.environmentKey))
  }

  lemma {:induction false} EnvironmentIdsAreTrimmed(id: string)
    requires RouteId.IsAllowedEnvironmentId(id)
    ensures Text.Trim(id) == id && id != ""
  {
    assert !Text.IsSpace(id[0]) && !Text.IsSpace(id[|id| - 1]) by {
      assert RouteId.IsEnvironmentIdChar(id[0]) && RouteId.IsEnvironmentIdChar(id[|id| - 1]);
    }
  }

  lemma ScopeParsesAgain(id: string)
    requires RouteId.IsAllowedEnvironmentId(id)
    ensures ParseEnvironment(Some(id)) == OnlyEnvironment(id) && id != ""
  {
    hide Text.Trim, RouteId.IsAllowedEnvironmentId;
    EnvironmentIdsAreTrimmed(id);
  }

  lemma ScopesParseAgain(scope: EnvironmentScope, value: Option<string>)
    requires scope == ParseEnvironment(value) && !scope.BadEnvironment?
    ensures ParseEnvironment(if EnvironmentKey(scope) == "" then None else Some(EnvironmentKey(scope))) == scope
  {
    hide Text.Trim, RouteId.IsAllowedEnvironmentId;
    if scope.OnlyEnvironment? {
      ScopeParsesAgain(scope.id);
    }
  }

  /** A path that the list shows and that validates as itself. */
  predicate IsListable(stored: string, probe: string -> bool) {
    !EndsInSpace(stored) && !probe(stored) && !IngressUrls.DotDotWithin(stored, IngressUrls.MAX_DECODE_ROUNDS)
  }

  lemma StoredPathIsNormal(a: RuleArguments, probe: string -> bool)
    requires Parse(a, probe).Parsed?
    ensures Validate(a.remainingPath, probe).Some?
    ensures Parse(a, probe).key.remainingPath == Normalize(a.remainingPath)
  {
    hide Normalize, Text.Trim;
  }

  /** What the list shows of a rule parses to the rule's key, with its path validated once more. */
  lemma ParseAsListed(a: RuleArguments, probe: string -> bool)
    requires Parse(a, probe).Parsed?
    ensures var key := Parse(a, probe).key;
      var again := Validate(key.remainingPath, probe);
      Parse(AsListed(key), probe)
        == if again.None? then Refused(InvalidPath) else Parsed(key.(remainingPath := again.value))
  {
    hide Validate, ValidateMode, ModeName, ParseEnvironment, EnvironmentKey, RouteId.IsAllowedRouteId;
    ModeParsesAgain(Parse(a, probe).key.mode);
    ScopesParseAgain(ParseEnvironment(a.environmentId), a.environmentId);
  }

  /**
   A stored rule is named by what the list shows of it exactly when its path does not end in whitespace,
   is no scanner probe and shows no `..` segment.
   */
  lemma NamedAsListedIff(a: RuleArguments, probe: string -> bool)
    requires Parse(a, probe).Parsed?
    ensures var key := Parse(a, probe).key;
      Parse(AsListed(key), probe) == Parsed(key) <==> IsListable(key.remainingPath, probe)
  {
    hide Parse, Normalize, Validate;
    StoredPathIsNormal(a, probe);
    ParseAsListed(a, probe);
    StoredPathIsValidIff(a.remainingPath, probe);
  }

  /** Exactly then, deleting what the list shows deletes the rule. */
  lemma DeletableAsListed(rules: Rules, a: RuleArguments, probe: string -> bool)
    requires Parse(a, probe).Parsed? && Parse(a, probe).key in rules
    ensures var key := Parse(a, probe).key;
      key !in Apply(rules, Delete(AsListed(key)), probe) <==> IsListable(key.remainingPath, probe)
  {
    hide Parse, IsListable;
    NamedAsListedIff(a, probe);
  }

  /** A stored path that ends in whitespace and passes the checks names another rule: the one without the whitespace. */
  lemma ListedSpaceNamesAnotherRule(a: RuleArguments, probe: string -> bool)
    requires Parse(a, probe).Parsed? && EndsInSpace(Parse(a, probe).key.remainingPath)
    ensures var key := Parse(a, probe).key;
      var named := Parse(AsListed(key), probe);
      named.Parsed? ==> named.key == key.(remainingPath := Normalize(key.remainingPath)) && named.key != key
  {
    hide Parse, Normalize, Validate;
    StoredPathIsNormal(a, probe);
    ParseAsListed(a, probe);
    NormalFormIsFixedIff(a.remainingPath);
  }

  /** That is so when whitespace stands just before the trailing slashes of the path the rule was stored for. */
  lemma TrailingSpaceIsNotDeletable(a: RuleArguments, probe: string -> bool)
    requires Parse(a, probe).Parsed? && SpaceBeforeTrailingSlashes(BarePath(a.remainingPath))
    ensures Parse(AsListed(Parse(a, probe).key), probe) != Parsed(Parse(a, probe).key)
  {
    hide Parse, Normalize, SpaceBeforeTrailingSlashes, BarePath;
    StoredPathIsNormal(a, probe);
    NormalFormEndsInSpaceIff(a.remainingPath);
    NamedAsListedIff(a, probe);
  }

  /** An allow rule of the root catch-all for every environment. */
  function AllowRule(path: string): RuleArguments {
    RuleArguments("", ModeName(Allow), path, None)
  }

  lemma ParseAllowRule(path: string, probe: string -> bool)
    requires Validate(path, probe).Some?
    ensures Parse(AllowRule(path), probe) == Parsed(RuleKey("", Allow, Validate(path, probe).value, ""))
  {
    hide Validate, ValidateMode, ModeName;
    ModeParsesAgain(Allow);
  }

  /**
   Rules accepted for `/a /`, `/a/.. ` and `/x.php `: the first is listed with a space at its end, the
   second as `/a/..` and the third as a probe, and none can be deleted as listed.
   */
  lemma UndeletableRules(probe: string -> bool)
    requires !probe("/a /") && !probe("/a/.. ") && !probe("/x.php ") && probe("/x.php")
    ensures var spaced := RuleKey("", Allow, "/a ", "");
      Parse(AllowRule("/a /"), probe) == Parsed(spaced) && Parse(AsListed(spaced), probe) != Parsed(spaced)
    ensures var dotted := RuleKey("", Allow, "/a/..", "");
      Parse(AllowRule("/a/.. "), probe) == Parsed(dotted) && Parse(AsListed(dotted), probe) == Refused(InvalidPath)
    ensures var probing := RuleKey("", Allow, "/x.php", "");
      Parse(AllowRule("/x.php "), probe) == Parsed(probing) && Parse(AsListed(probing), probe) == Refused(InvalidPath)
  {
    hide Parse, Validate, EndsInSpace, IngressUrls.DotDotWithin;
    SlashAfterSpaceIsStored(probe);
    DotDotBeforeSpaceIsStored(probe);
    ProbeBeforeSpaceIsStored(probe);
    forall path | path in {"/a /", "/a/.. ", "/x.php "}
      ensures Parse(AllowRule(path), probe) == Parsed(RuleKey("", Allow, Validate(path, probe).value, ""))
    {
      ParseAllowRule(path, probe);
    }
    NamedAsListedIff(AllowRule("/a /"), probe);
    ParseAsListed(AllowRule("/a/.. "), probe);
    ParseAsListed(AllowRule("/x.php "), probe);
  }

  // ---- the tables ------------------------------------------------------------------------

  function ByListOrder(a: RuleKey, b: RuleKey): bool {
    || (a.mode == Allow && b.mode == Deny)
    || (a.mode == b.mode && CappedLog.Less(a.remainingPath, b.remainingPath))
    || (a.mode == b.mode && a.remainingPath == b.remainingPath && CappedLog.Less(a.environmentKey, b.environmentKey))
  }

  /** Allow rules come first, then paths in order, then environments, "" before all others. */
  ghost predicate IsListedBefore(a: RuleKey, b: RuleKey) {
    if a.mode != b.mode then a.mode == Allow
    else if a.remainingPath != b.remainingPath then
      exists k: nat :: CappedLog.SmallerAt(a.remainingPath, b.remainingPath, k)
    else exists k: nat :: CappedLog.SmallerAt(a.environmentKey, b.environmentKey, k)
  }

  lemma ListOrderIff()
    ensures forall a, b :: ByListOrder(a, b) <==> IsListedBefore(a, b)
  {
    forall a, b ensures ByListOrder(a, b) <==> IsListedBefore(a, b) {
      CappedLog.LessIff(a.remainingPath, b.remainingPath);
      CappedLog.LessIff(a.environmentKey, b.environmentKey);
      CappedLog.LessIsTotal(a.remainingPath, b.remainingPath);
      hide CappedLog.Less, CappedLog.SmallerAt;
    }
  }

  ghost predicate IsFirst(keys: set<RuleKey>, key: RuleKey) {
    key in keys && forall other :: other in keys && other != key ==> ByListOrder(key, other)
  }

  lemma OrderIsTotal(a: RuleKey, b: RuleKey, c: RuleKey)
    ensures a.routeId == b.routeId ==> a == b || ByListOrder(a, b) || ByListOrder(b, a)
    ensures ByListOrder(a, b) && ByListOrder(b, c) ==> ByListOrder(a, c)
  {
    CappedLog.LessIsTotal(a.remainingPath, b.remainingPath);
    CappedLog.LessIsTotal(a.environmentKey, b.environmentKey);
    if CappedLog.Less(a.remainingPath, b.remainingPath) && CappedLog.Less(b.remainingPath, c.remainingPath) {
      CappedLog.LessIsTransitive(a.remainingPath, b.remainingPath, c.remainingPath);
    }
    if CappedLog.Less(a.environmentKey, b.environmentKey) && CappedLog.Less(b.environmentKey, c.environmentKey) {
      CappedLog.LessIsTransitive(a.environmentKey, b.environmentKey, c.environmentKey);
    }
  }

  lemma {:induction false} FirstExists(keys: set<RuleKey>, routeId: string)
    requires keys != {} && forall key :: key in keys ==> key.routeId == routeId
    ensures exists key :: IsFirst(keys, key)
    decreases keys
  {
    hide ByListOrder;
    var some :| some in keys;
    var rest := keys - {some};
    assert keys == rest + {some};
    if rest == {} {
      assert IsFirst(keys, some);
    } else {
      FirstExists(rest, routeId);
      var first :| IsFirst(rest, first);
      OrderIsTotal(first, some, some);
      forall other | other in rest ensures ByListOrder(some, first) && ByListOrder(first, other) ==>
        ByListOrder(some, other) {
        OrderIsTotal(some, first, other);
      }
      assert IsFirst(keys, first) || IsFirst(keys, some);
    }
  }

  lemma NothingToDelete(rules: Rules, key: RuleKey)
    requires key !in rules
    ensures rules - {key} == rules
  {
  }

  datatype WriteResult = Stored(key: RuleKey, createdAt: int) | Failed(error: WriteError)

  class RuleTable {
    var rules: Rules
    var denyAll: map<string, bool>

    constructor ()
      ensures WithinLimit(rules) && rules == map[] && denyAll == map[]
    {
      rules, denyAll := map[], map[];
      new;
      assert forall routeId :: RulesOf(rules, routeId) == {};
    }

    method UpsertRule(a: RuleArguments, now: int, probe: string -> bool) returns (result: WriteResult)
      modifies this`rules
      ensures rules == Apply(old(rules), Upsert(a, now), probe)
      ensures old(WithinLimit(rules)) ==> WithinLimit(rules)
      ensures result.Stored? ==>
        Parse(a, probe) == Parsed(result.key) && result.key in rules && rules[result.key] == now
      ensures result.Failed? ==> rules == old(rules)
      ensures result.Stored? <==>
        Parse(a, probe).Parsed? && (Parse(a, probe).key in old(rules) || |RulesOf(old(rules), a.routeId)| < 32)
      ensures result == Failed(RuleLimit) <==> Parse(a, probe).Parsed? && !result.Stored?
      ensures Parse(a, probe).Refused? ==> result == Failed(Parse(a, probe).error)
    {
      if WithinLimit(rules) {
        ApplyKeepsLimit(rules, Resolve(Upsert(a, now), probe));
      }
      if !RouteId.IsAllowedRouteId(a.routeId) {
        return Failed(InvalidRouteId);
      }
      var mode := ValidateMode(a.mode);
      if mode.None? {
        return Failed(InvalidMode);
      }
      var path := Validate(a.remainingPath, probe);
      if path.None? {
        return Failed(InvalidPath);
      }
      var scope := ParseEnvironment(a.environmentId);
      if scope.BadEnvironment? {
        return Failed(InvalidEnvironmentId);
      }
      var key := RuleKey(a.routeId, mode.value, path.value, EnvironmentKey(scope));
      if key !in rules {
        var count := |RulesOf(rules, a.routeId)|;
        if count >= WEBHOOK_FANOUT_RULE_LIMIT {
          return Failed(RuleLimit);
        }
      }
      rules := rules[key := now];
      return Stored(key, now);
    }

    method DeleteRule(a: RuleArguments, probe: string -> bool) returns (deleted: bool)
      modifies this`rules
      ensures rules == Apply(old(rules), Delete(a), probe)
      ensures old(WithinLimit(rules)) ==> WithinLimit(rules)
      ensures deleted <==> Parse(a, probe).Parsed? && Parse(a, probe).key in old(rules)
    {
      hide HasRoom, WithinLimit, Parse;
      if WithinLimit(rules) {
        ApplyKeepsLimit(rules, Resolve(Delete(a), probe));
      }
      var parsed := Parse(a, probe);
      if parsed.Refused? {
        return false;
      }
      if parsed.key !in rules {
        NothingToDelete(rules, parsed.key);
        return false;
      }
      rules := rules - {parsed.key};
      return true;
    }

    /** The rules of a route, ordered by mode, path and environment. */
    method ListRules(routeId: string) returns (listed: seq<RuleKey>)
      ensures !RouteId.IsAllowedRouteId(routeId) ==> listed == []
      ensures RouteId.IsAllowedRouteId(routeId) ==> forall key :: key in listed <==>
        key in rules && key.routeId == routeId
      ensures forall i, j :: 0 <= i < j < |listed| ==> IsListedBefore(listed[i], listed[j])
    {
      ListOrderIff();
      hide ByListOrder, IsListedBefore;
      listed := [];
      if !RouteId.IsAllowedRouteId(routeId) {
        return;
      }
      var left := RulesOf(rules, routeId);
      while left != {}
        invariant left <= RulesOf(rules, routeId)
        invariant forall key :: key in listed <==> key in RulesOf(rules, routeId) && key !in left
        invariant forall i, j :: 0 <= i < j < |listed| ==> ByListOrder(listed[i], listed[j])
        invariant forall i, key :: 0 <= i < |listed| && key in left ==> ByListOrder(listed[i], key)
        decreases left
      {
        FirstExists(left, routeId);
        var key :| key in left && forall other :: other in left && other != key ==> ByListOrder(key, other);
        listed := listed + [key];
        left := left - {key};
      }
    }

    /** Only an allowed route can be switched. */
    method SetDenyAll(routeId: string, deny: bool) returns (ok: bool)
      modifies this`denyAll
      ensures ok <==> RouteId.IsAllowedRouteId(routeId)
      ensures denyAll == if ok then old(denyAll)[routeId := deny] else old(denyAll)
    {
      if !RouteId.IsAllowedRouteId(routeId) {
        return false;
      }
      denyAll := denyAll[routeId := deny];
      return true;
    }

    /** What fan-out on a route is filtered by: its deny-all flag and exactly its own rules. */
    method GetSettings(routeId: string) returns (settings: WebhookPathFilter.Settings)
      ensures settings.denyAllWebhooks <==> RouteId.IsAllowedRouteId(routeId) && routeId in denyAll && denyAll[routeId]
      ensures RouteId.IsAllowedRouteId(routeId) ==>
        forall key :: key in RulesOf(rules, routeId) ==> AsRule(key) in settings.rules
      ensures forall rule :: rule in settings.rules ==>
        RouteId.IsAllowedRouteId(routeId) && exists key :: key in RulesOf(rules, routeId) && rule == AsRule(key)
    {
      var keys := ListRules(routeId);
      settings := WebhookPathFilter.Settings(
        RouteId.IsAllowedRouteId(routeId) && routeId in denyAll && denyAll[routeId],
        seq(|keys|, i requires 0 <= i < |keys| => AsRule(keys[i])));
      forall key | RouteId.IsAllowedRouteId(routeId) && key in RulesOf(rules, routeId)
        ensures AsRule(key) in settings.rules
      {
        var i :| 0 <= i < |keys| && keys[i] == key;
        assert settings.rules[i] == AsRule(key);
      }
      forall rule | rule in settings.rules
        ensures RouteId.IsAllowedRouteId(routeId) && exists key :: key in RulesOf(rules, routeId) && rule == AsRule(key)
      {
        var i :| 0 <= i < |keys| && settings.rules[i] == rule;
        assert keys[i] in keys;
      }
    }
  }

  function AsRule(key: RuleKey): WebhookPathFilter.Rule {
    WebhookPathFilter.Rule(key.mode, key.remainingPath,
                           if key.environmentKey == "" then None else Some(key.environmentKey))
  }
}
