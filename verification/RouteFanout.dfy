/** The fan-out list is the order-preserving filter of the deliverable subscribers. */
module RouteFanout {
  import opened Wrappers
  import opened RouteState
  import opened RouteSteps
  import opened WebhookFilterPath
  import opened WebhookPathFilter

  function SubscribersOf(rows: map<string, Row>, ids: seq<string>): (r: seq<Subscriber>)
    requires forall i :: 0 <= i < |ids| ==> ids[i] in rows
    ensures |r| == |ids|
  {
    seq(|ids|, i requires 0 <= i < |ids| => AsSubscriber(ids[i], rows[ids[i]]))
  }

  function IdsOf(subscribers: seq<Subscriber>): (r: seq<string>)
    ensures |r| == |subscribers|
  {
    seq(|subscribers|, i requires 0 <= i < |subscribers| => subscribers[i].id)
  }

  ghost predicate Distinct(ids: seq<string>) {
    forall i, j :: 0 <= i < j < |ids| ==> ids[i] != ids[j]
  }

  /** `kept` is the sublist of `ids` that passes a test. */
  ghost predicate KeepsOrder(ids: seq<string>, kept: seq<string>, keep: string -> bool) {
    && (forall id :: id in kept <==> id in ids && keep(id))
    && (forall p: (string, string) -> bool :: Pairwise(ids, p) ==> Pairwise(kept, p))
  }

  ghost predicate Pairwise(ids: seq<string>, p: (string, string) -> bool) {
    forall i, j :: 0 <= i < j < |ids| ==> p(ids[i], ids[j])
  }

  lemma PairwiseCons(head: string, rest: seq<string>, p: (string, string) -> bool)
    ensures Pairwise([head] + rest, p) <==> Pairwise(rest, p) && forall id :: id in rest ==> p(head, id)
  {
    var ids := [head] + rest;
    if Pairwise(ids, p) {
      forall i, j | 0 <= i < j < |rest| ensures p(rest[i], rest[j]) {
        assert p(ids[i + 1], ids[j + 1]);
      }
      forall id | id in rest ensures p(head, id) {
        var j :| 0 <= j < |rest| && rest[j] == id;
        assert p(ids[0], ids[j + 1]);
      }
    }
  }

  lemma KeepsOrderCons(head: string, rest: seq<string>, kept: seq<string>, keep: string -> bool)
    requires KeepsOrder(rest, kept, keep)
    ensures KeepsOrder([head] + rest, if keep(head) then [head] + kept else kept, keep)
  {
    forall p: (string, string) -> bool | Pairwise([head] + rest, p)
      ensures Pairwise(if keep(head) then [head] + kept else kept, p)
    {
      PairwiseCons(head, rest, p);
      PairwiseCons(head, kept, p);
    }
  }

  /** Filtering the subscribers of a list of ids filters the ids. */
  lemma {:induction false} FilterOfList(rows: map<string, Row>, ids: seq<string>, keep: Subscriber -> bool)
    requires forall i :: 0 <= i < |ids| ==> ids[i] in rows
    ensures KeepsOrder(ids, IdsOf(Filter(keep, SubscribersOf(rows, ids))),
                       id => id in rows && keep(AsSubscriber(id, rows[id])))
    decreases |ids|
  {
    var test := (id: string) => id in rows && keep(AsSubscriber(id, rows[id]));
    if ids != [] {
      var head, rest := ids[0], ids[1..];
      FilterOfList(rows, rest, keep);
      assert SubscribersOf(rows, ids)[1..] == SubscribersOf(rows, rest);
      var tail := IdsOf(Filter(keep, SubscribersOf(rows, rest)));
      assert IdsOf(Filter(keep, SubscribersOf(rows, ids))) == if test(head) then [head] + tail else tail;
      KeepsOrderCons(head, rest, tail, test);
      assert [head] + rest == ids;
    }
  }

  lemma KeptList(rows: map<string, Row>, ids: seq<string>, kept: seq<string>, keep: string -> bool)
    requires ByCreation(rows, ids) && Distinct(ids) && KeepsOrder(ids, kept, keep)
    ensures ByCreation(rows, kept) && Distinct(kept)
  {
    var older := (a: string, b: string) => a in rows && b in rows && rows[a].createdAt <= rows[b].createdAt;
    var differ := (a: string, b: string) => a != b;
    assert Pairwise(ids, older) && Pairwise(ids, differ);
    assert Pairwise(kept, older) && Pairwise(kept, differ);
    assert forall i :: 0 <= i < |kept| ==> kept[i] in kept && kept[i] in ids;
  }

  lemma SelectionIsFanoutList(s: State, path: string, settings: Settings, ids: seq<string>)
    requires Enumerates(ids, Deliverable(s)) && ByCreation(s.rows, ids)
    ensures IsFanoutList(s, path, settings, IdsOf(Select(SubscribersOf(s.rows, ids), path, settings)))
  {
    var selected := IdsOf(Select(SubscribersOf(s.rows, ids), path, settings));
    if settings.denyAllWebhooks {
      assert selected == [];
    } else {
      var keep := (subscriber: Subscriber) => Accepts(subscriber, path, settings.rules);
      var test := (id: string) => id in s.rows && keep(AsSubscriber(id, s.rows[id]));
      FilterOfList(s.rows, ids, keep);
      KeptList(s.rows, ids, selected, test);
    }
  }

  /** The row takes this webhook: told on the row, the route's settings and the rules' own fields. */
  ghost predicate TakesWebhook(row: Row, path: string, settings: Settings) {
    && !settings.denyAllWebhooks && row.acceptWebhooks
    && (forall rule :: rule in settings.rules && rule.mode == Deny
                       && (rule.environmentId == None || rule.environmentId == row.environmentId) ==>
          !Covered(path, rule.remainingPath))
    && ((exists rule :: rule in settings.rules && rule.mode == Allow
                        && (rule.environmentId == None || rule.environmentId == row.environmentId)) ==>
          exists rule :: rule in settings.rules && rule.mode == Allow
                         && (rule.environmentId == None || rule.environmentId == row.environmentId)
                         && Covered(path, rule.remainingPath))
  }

  /**
   A fan-out reaches exactly the subscribers left by its purge that are public or have an OPEN socket and
   take the webhook, each once and the oldest first.
   */
  lemma FanOutReachesIff(s: State, step: Step, id: string)
    requires Enabled(s, step) && step.FanOut?
    ensures var p := Purge(s, step.now, step.order);
      && (id in step.targets <==>
            && id in p.rows
            && (p.rows[id].transport == Public
                || exists w :: w in p.sockets && p.sockets[w].tag == id && p.sockets[w].open)
            && TakesWebhook(p.rows[id], step.path, step.settings))
      && (forall i, j :: 0 <= i < j < |step.targets| ==>
            && step.targets[i] != step.targets[j] && step.targets[i] in p.rows && step.targets[j] in p.rows
            && p.rows[step.targets[i]].createdAt <= p.rows[step.targets[j]].createdAt)
  {
    hide Purge, Removed, Accepts, Covered;
    var p := Purge(s, step.now, step.order);
    if id in p.rows {
      AcceptsIff(Subscriber(id, p.rows[id].environmentId, p.rows[id].acceptWebhooks), step.path, step.settings.rules);
    }
  }
}
