/** Choosing the subscribers of a webhook (src/webhook-path-filter.ts). */
module WebhookPathFilter {
  import opened Wrappers
  import opened Text
  import opened WebhookFilterPath

  datatype Rule = Rule(mode: RuleMode, remainingPath: string, environmentId: Option<string>)

  datatype Settings = Settings(denyAllWebhooks: bool, rules: seq<Rule>)

  /** The subscriber fields the filter reads. */
  datatype Subscriber = Subscriber(id: string, environmentId: Option<string>, acceptWebhooks: bool)

  /** A normal path equals a normal prefix other than the root, or continues it with a slash. */
  predicate Under(path: string, prefix: string) {
    prefix != "/" && (path == prefix || StartsWith(path, prefix + "/"))
  }

  /** `remainingPathMatchesWebhookPrefix`. */
  predicate Matches(path: string, prefix: string) {
    Under(Normalize(path), Normalize(prefix))
  }

  function Filter<T>(keep: T -> bool, items: seq<T>): seq<T> {
    if items == [] then []
    else (if keep(items[0]) then [items[0]] else []) + Filter(keep, items[1..])
  }

  predicate AppliesTo(rule: Rule, subscriber: Subscriber) {
    rule.environmentId.None? || rule.environmentId == subscriber.environmentId
  }

  /** The decision, given which rules hit the path. */
  predicate AcceptsBy(subscriber: Subscriber, rules: seq<Rule>, hits: Rule -> bool) {
    if !subscriber.acceptWebhooks then false
    else
      var applicable := Filter((rule: Rule) => AppliesTo(rule, subscriber), rules);
      var allows := Filter((rule: Rule) => rule.mode == Allow, applicable);
      var denies := Filter((rule: Rule) => rule.mode == Deny, applicable);
      if |allows| > 0 && !(exists rule :: rule in allows && hits(rule)) then false
      else if exists rule :: rule in denies && hits(rule) then false
      else true
  }

  /** `subscriberAcceptsWebhookPath`. */
  predicate Accepts(subscriber: Subscriber, path: string, rules: seq<Rule>) {
    AcceptsBy(subscriber, rules, (rule: Rule) => Matches(path, rule.remainingPath))
  }

  /** `selectWebhookFanoutSubscribers`. */
  function Select(subscribers: seq<Subscriber>, path: string, settings: Settings): seq<Subscriber> {
    if settings.denyAllWebhooks then []
    else Filter((subscriber: Subscriber) => Accepts(subscriber, path, settings.rules), subscribers)
  }

  // ---- what the filter decides ------------------------------------------------

  lemma {:induction false} FilterKeeps<T>(keep: T -> bool, items: seq<T>)
    ensures forall x :: x in Filter(keep, items) <==> x in items && keep(x)
  {
    if items != [] {
      FilterKeeps(keep, items[1..]);
      assert items == [items[0]] + items[1..];
    }
  }

  /** A rule of this mode for every environment, or for the subscriber's own. */
  predicate InForce(rule: Rule, mode: RuleMode, subscriber: Subscriber) {
    rule.mode == mode && (rule.environmentId == None || rule.environmentId == subscriber.environmentId)
  }

  /** The decision in terms of the set of rules alone. */
  ghost predicate Wanted(subscriber: Subscriber, rules: seq<Rule>, hits: Rule -> bool) {
    && subscriber.acceptWebhooks
    && ((exists rule :: rule in rules && InForce(rule, Allow, subscriber)) ==>
          exists rule :: rule in rules && InForce(rule, Allow, subscriber) && hits(rule))
    && !exists rule :: rule in rules && InForce(rule, Deny, subscriber) && hits(rule)
  }

  lemma AcceptsIffWanted(subscriber: Subscriber, rules: seq<Rule>, hits: Rule -> bool)
    ensures AcceptsBy(subscriber, rules, hits) <==> Wanted(subscriber, rules, hits)
  {
    var applicable := Filter((rule: Rule) => AppliesTo(rule, subscriber), rules);
    var allows := Filter((rule: Rule) => rule.mode == Allow, applicable);
    var denies := Filter((rule: Rule) => rule.mode == Deny, applicable);
    FilterKeeps((rule: Rule) => AppliesTo(rule, subscriber), rules);
    FilterKeeps((rule: Rule) => rule.mode == Allow, applicable);
    FilterKeeps((rule: Rule) => rule.mode == Deny, applicable);
    assert forall rule :: rule in allows <==> rule in rules && InForce(rule, Allow, subscriber);
    assert forall rule :: rule in denies <==> rule in rules && InForce(rule, Deny, subscriber);
    if |allows| > 0 {
      assert allows[0] in allows;
    }
  }

  /** Neither the order of the rules nor repeating one matters. */
  lemma {:induction false} RuleOrderIsIrrelevant(subscribers: seq<Subscriber>, path: string, left: Settings,
                                                 right: Settings)
    requires left.denyAllWebhooks == right.denyAllWebhooks
    requires forall rule :: rule in left.rules <==> rule in right.rules
    ensures Select(subscribers, path, left) == Select(subscribers, path, right)
  {
    hide AcceptsBy, Matches;
    if subscribers != [] {
      var hits := (rule: Rule) => Matches(path, rule.remainingPath);
      RuleOrderIsIrrelevant(subscribers[1..], path, left, right);
      AcceptsIffWanted(subscribers[0], left.rules, hits);
      AcceptsIffWanted(subscribers[0], right.rules, hits);
      assert Accepts(subscribers[0], path, left.rules) == Accepts(subscribers[0], path, right.rules);
    }
  }

  // ---- prefix match is segment-sequence prefix ---------------------------------

  lemma SegmentPrefixForward(p: string, q: string)
    requires StartsWith(p, q + "/")
    ensures Split(q, '/') <= Split(p, '/')
  {
    var rest := p[|q| + 1..];
    assert p == q + ['/'] + rest;
    SplitAppend(q, rest, '/');
  }

  lemma SegmentPrefixBackward(p: string, q: string)
    requires Split(q, '/') <= Split(p, '/')
    ensures p == q || StartsWith(p, q + "/")
  {
    var ps, qs := Split(p, '/'), Split(q, '/');
    JoinSplit(p, '/');
    JoinSplit(q, '/');
    var rest := ps[|qs|..];
    assert ps == qs + rest;
    if rest == [] {
      assert ps == qs;
    } else {
      JoinAppend(qs, rest, '/');
    }
  }

  /**
   The string test holds exactly when the prefix's slash-separated segments are a sequence prefix
   of the path's: `/webhooks/mews` covers `/webhooks/mews/x` and not `/webhooks/mews-backup`.
   */
  lemma UnderIsSegmentPrefix(path: string, prefix: string)
    requires prefix != "/"
    ensures Under(path, prefix) <==> Split(prefix, '/') <= Split(path, '/')
  {
    if StartsWith(path, prefix + "/") {
      SegmentPrefixForward(path, prefix);
    }
    if Split(prefix, '/') <= Split(path, '/') {
      SegmentPrefixBackward(path, prefix);
    }
  }

  lemma UnderIsTransitive(path: string, middle: string, prefix: string)
    requires Under(path, middle) && Under(middle, prefix)
    ensures Under(path, prefix)
  {
    hide Split;
    UnderIsSegmentPrefix(path, middle);
    UnderIsSegmentPrefix(middle, prefix);
    UnderIsSegmentPrefix(path, prefix);
  }

  lemma UnderIsAntisymmetric(left: string, right: string)
    requires Under(left, right) && Under(right, left)
    ensures left == right
  {
    hide Split;
    UnderIsSegmentPrefix(left, right);
    UnderIsSegmentPrefix(right, left);
    JoinSplit(left, '/');
    JoinSplit(right, '/');
  }

  /** Two paths that are both under a third are under one another, one way or the other. */
  lemma PrefixesOfAPathAreComparable(path: string, left: string, right: string)
    requires Under(path, left) && Under(path, right)
    ensures Under(left, right) || Under(right, left)
  {
    hide Split;
    UnderIsSegmentPrefix(path, left);
    UnderIsSegmentPrefix(path, right);
    UnderIsSegmentPrefix(left, right);
    UnderIsSegmentPrefix(right, left);
  }

  // ---- the whole decision --------------------------------------------------------

  /** The prefix's normal form is no root, and its segments begin those of the path's normal form. */
  predicate Covered(path: string, prefix: string) {
    Normalize(prefix) != "/" && Split(Normalize(prefix), '/') <= Split(Normalize(path), '/')
  }

  /**
   A subscriber receives a webhook exactly if it accepts any, no deny rule for all or for its own
   environment covers the path, and one such allow rule does, if there are any.
   */
  lemma AcceptsIff(subscriber: Subscriber, path: string, rules: seq<Rule>)
    ensures Accepts(subscriber, path, rules) <==>
      && subscriber.acceptWebhooks
      && (forall rule :: rule in rules && InForce(rule, Deny, subscriber) ==> !Covered(path, rule.remainingPath))
      && ((exists rule :: rule in rules && InForce(rule, Allow, subscriber)) ==>
            exists rule :: rule in rules && InForce(rule, Allow, subscriber) && Covered(path, rule.remainingPath))
  {
    hide AcceptsBy, InForce, Split, Normalize;
    var hits := (rule: Rule) => Matches(path, rule.remainingPath);
    AcceptsIffWanted(subscriber, rules, hits);
    forall rule: Rule ensures hits(rule) <==> Covered(path, rule.remainingPath) {
      if Normalize(rule.remainingPath) != "/" {
        UnderIsSegmentPrefix(Normalize(path), Normalize(rule.remainingPath));
      }
    }
  }

  /** A rule for another environment than the subscriber's changes nothing for it. */
  lemma ForeignRuleIsIrrelevant(subscriber: Subscriber, path: string, rules: seq<Rule>, foreign: Rule)
    requires foreign.environmentId.Some? && foreign.environmentId != subscriber.environmentId
    ensures Accepts(subscriber, path, rules + [foreign]) == Accepts(subscriber, path, rules)
  {
    hide AcceptsBy, Matches;
    var hits := (rule: Rule) => Matches(path, rule.remainingPath);
    AcceptsIffWanted(subscriber, rules, hits);
    AcceptsIffWanted(subscriber, rules + [foreign], hits);
    assert forall rule :: rule in rules + [foreign] <==> rule in rules || rule == foreign;
  }

  /** Two environments with a rule each: a deny rule for one stops its subscribers and no others. */
  lemma ScopedDenyStopsItsOwn(path: string, denied: Rule, left: Subscriber, right: Subscriber)
    requires denied.mode == Deny && denied.environmentId.Some? && Covered(path, denied.remainingPath)
    requires left.environmentId == denied.environmentId && right.environmentId != denied.environmentId
    ensures !Accepts(left, path, [denied]) && (Accepts(right, path, [denied]) <==> right.acceptWebhooks)
  {
    hide Accepts, Covered;
    AcceptsIff(left, path, [denied]);
    AcceptsIff(right, path, [denied]);
    assert denied in [denied];
  }

  // ---- redundant rules -------------------------------------------------------

  /** `wide` decides everything `narrow` decides: same mode, no narrower scope, and a covering prefix. */
  predicate Covers(wide: Rule, narrow: Rule) {
    && wide.mode == narrow.mode
    && (wide.environmentId.None? || wide.environmentId == narrow.environmentId)
    && Matches(narrow.remainingPath, wide.remainingPath)
  }

  /** A rule hit whenever a rule of narrower or equal scope and the same mode is makes that one redundant. */
  lemma CoveredRuleAddsNothing(subscriber: Subscriber, rules: seq<Rule>, narrow: Rule, wide: Rule, hits: Rule -> bool)
    requires wide in rules && wide.mode == narrow.mode
    requires wide.environmentId.None? || wide.environmentId == narrow.environmentId
    requires hits(narrow) ==> hits(wide)
    ensures AcceptsBy(subscriber, rules + [narrow], hits) == AcceptsBy(subscriber, rules, hits)
  {
    hide AcceptsBy;
    AcceptsIffWanted(subscriber, rules, hits);
    AcceptsIffWanted(subscriber, rules + [narrow], hits);
    assert forall rule :: rule in rules + [narrow] <==> rule in rules || rule == narrow;
    assert InForce(narrow, narrow.mode, subscriber) ==> InForce(wide, narrow.mode, subscriber);
  }

  /** Dropping a covered rule never changes who receives a webhook. */
  lemma {:induction false} CoveredRuleIsRedundant(subscribers: seq<Subscriber>, path: string, denyAll: bool,
                                                  rules: seq<Rule>, narrow: Rule, wide: Rule)
    requires wide in rules && Covers(wide, narrow)
    ensures Select(subscribers, path, Settings(denyAll, rules + [narrow]))
         == Select(subscribers, path, Settings(denyAll, rules))
  {
    hide AcceptsBy, Normalize;
    if subscribers != [] {
      CoveredRuleIsRedundant(subscribers[1..], path, denyAll, rules, narrow, wide);
      if Matches(path, narrow.remainingPath) {
        UnderIsTransitive(Normalize(path), Normalize(narrow.remainingPath), Normalize(wide.remainingPath));
      }
      CoveredRuleAddsNothing(subscribers[0], rules, narrow, wide, (rule: Rule) => Matches(path, rule.remainingPath));
      assert Accepts(subscribers[0], path, rules + [narrow]) == Accepts(subscribers[0], path, rules);
    }
  }
}
