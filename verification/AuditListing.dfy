/**
 The audit log as it is stored and listed (src/connection-log-storage.ts). One flush stamps all its
 events with one time and draws their ids at random, and the list orders rows by time and then by id,
 so within a flush it need not show the order in which the events were sent.
 */
module AuditListing {
  import opened Wrappers
  import opened CappedLog
  import opened LogStorage
  import opened RouteState
  import opened RouteInvariant
  import opened RouteReachable
  import opened RouteGuarantees

  type AuditRow = LogEvent<Event>

  /** About a subscriber, rejections aside. */
  predicate IsAbout(row: AuditRow, id: string) {
    row.data.subscriberId == id && row.data.action != Rejected
  }

  /** Rows in the order in which their events were sent: times never fall, and ids differ. */
  ghost predicate SentInOrder(sent: seq<AuditRow>) {
    forall i, j :: 0 <= i < j < |sent| ==> sent[i].occurredAt <= sent[j].occurredAt && sent[i].id != sent[j].id
  }

  /** The history has all rows sent, and no other rows about the subscriber. */
  ghost predicate Records(history: Table<Event>, sent: seq<AuditRow>, id: string) {
    && Keyed(history)
    && (forall i :: 0 <= i < |sent| ==> sent[i].id in history && history[sent[i].id] == sent[i])
    && (forall key :: key in history && IsAbout(history[key], id) ==> history[key] in sent)
  }

  /** The last row sent about the subscriber. */
  ghost predicate IsLastAbout(sent: seq<AuditRow>, id: string, k: nat) {
    && k < |sent| && IsAbout(sent[k], id)
    && forall i :: k < i < |sent| ==> !IsAbout(sent[i], id)
  }

  /** The first row listed about the subscriber: the newest. */
  ghost predicate IsFirstAbout(listed: seq<AuditRow>, id: string, j: nat) {
    && j < |listed| && IsAbout(listed[j], id)
    && forall i :: 0 <= i < j ==> !IsAbout(listed[i], id)
  }

  /** Rows about the subscriber that share the last one's time have smaller ids. */
  ghost predicate WinsTies(sent: seq<AuditRow>, id: string, k: nat)
    requires k < |sent|
  {
    forall i :: 0 <= i < k && IsAbout(sent[i], id) && sent[i].occurredAt == sent[k].occurredAt ==>
      Less(sent[i].id, sent[k].id)
  }

  /** Everything else sent about the subscriber is older than the last row, exactly if that wins the ties. */
  lemma LastIsNewestIff(sent: seq<AuditRow>, id: string, k: nat)
    requires SentInOrder(sent) && IsLastAbout(sent, id, k)
    ensures WinsTies(sent, id, k) <==> forall i :: 0 <= i < |sent| && i != k && IsAbout(sent[i], id) ==>
      Before(sent[i], sent[k])
  {
  }

  /** If a row of the window comes after a listed one, it is listed as well, and earlier. */
  lemma NewerIsListedEarlier(listed: seq<AuditRow>, table: Table<Event>, n: nat, row: AuditRow, j: nat)
    requires Keyed(table) && IsNewest(listed, table, n) && j < |listed|
    requires row.id in table && table[row.id] == row && Before(listed[j], row)
    ensures exists m :: 0 <= m < j && listed[m] == row
  {
    BeforeIsTotal(listed[j], row);
    NeverBoth(listed, listed[j]);
    var m :| 0 <= m < |listed| && listed[m] == row;
  }

  /**
   If a list of the newest rows in the window has rows about a subscriber, the first of them is the last
   one sent exactly when that one wins the ties of its time.
   */
  lemma FirstListedIsLastSentIff(history: Table<Event>, sent: seq<AuditRow>, listed: seq<AuditRow>, from: int, n: nat,
                                 id: string, k: nat, j: nat)
    requires SentInOrder(sent) && Records(history, sent, id) && IsNewest(listed, Since(history, from), n)
    requires IsLastAbout(sent, id, k) && IsFirstAbout(listed, id, j)
    ensures listed[j] == sent[k] <==> WinsTies(sent, id, k)
  {
    hide IsNewest, Before;
    ListedIsSent(history, sent, listed, from, n, id, j);
    var i :| 0 <= i < |sent| && sent[i] == listed[j];
    LastIsNewestIff(sent, id, k);
    if WinsTies(sent, id, k) && i != k {
      NewerIsListedEarlier(listed, Since(history, from), n, sent[k], j);
      assert false;
    }
    if listed[j] == sent[k] && !WinsTies(sent, id, k) {
      var x :| 0 <= x < |sent| && x != k && IsAbout(sent[x], id) && !Before(sent[x], sent[k]);
      BeforeIsTotal(sent[x], sent[k]);
      SentAreDistinct(sent, x, k);
      BeforeIsNoEarlier(sent[k], sent[x]);
      NewerIsListedEarlier(listed, Since(history, from), n, sent[x], j);
      assert false;
    }
  }

  lemma SentAreDistinct(sent: seq<AuditRow>, i: nat, j: nat)
    requires SentInOrder(sent) && i < |sent| && j < |sent| && i != j
    ensures sent[i].id != sent[j].id
  {
  }

  lemma BeforeIsNoEarlier(a: AuditRow, b: AuditRow)
    requires Before(a, b)
    ensures a.occurredAt <= b.occurredAt
  {
  }

  lemma ListedIsSent(history: Table<Event>, sent: seq<AuditRow>, listed: seq<AuditRow>, from: int, n: nat, id: string,
                     j: nat)
    requires Records(history, sent, id) && IsNewest(listed, Since(history, from), n) && j < |listed|
    requires IsAbout(listed[j], id)
    ensures listed[j] in sent && listed[j].occurredAt >= from
  {
  }

  // ---- the log and the live set ----------------------------------------------------------

  function DataOf(sent: seq<AuditRow>): (events: seq<Event>)
    ensures |events| == |sent|
    ensures forall i :: 0 <= i < |sent| ==> events[i] == sent[i].data
  {
    seq(|sent|, i requires 0 <= i < |sent| => sent[i].data)
  }

  lemma {:induction false} LastActionIsLastSent(sent: seq<AuditRow>, id: string, k: nat)
    requires IsLastAbout(sent, id, k)
    ensures LastAction(DataOf(sent), id) == Some(sent[k].data.action)
    decreases |sent|
  {
    var front := sent[..|sent| - 1];
    assert DataOf(sent)[..|sent| - 1] == DataOf(front);
    if k < |front| {
      assert IsLastAbout(front, id, k);
      LastActionIsLastSent(front, id, k);
    }
  }

  /**
   In every reachable state whose audit queue is empty, the newest listed event of a subscriber is
   `connected` exactly if the subscriber is live, whenever its last event wins the ties of its time.
   */
  lemma ListedReplay(s: State, history: Table<Event>, sent: seq<AuditRow>, listed: seq<AuditRow>, from: int, n: nat,
                     id: string, k: nat, j: nat)
    requires Reachable(s) && s.queued == [] && DataOf(sent) == s.flushed
    requires SentInOrder(sent) && Records(history, sent, id) && IsNewest(listed, Since(history, from), n)
    requires IsLastAbout(sent, id, k) && IsFirstAbout(listed, id, j) && WinsTies(sent, id, k)
    ensures listed[j].data.action == Connected <==> InLiveSet(s.rows, s.sockets, s.ignored, id)
  {
    hide Reachable, InLiveSet, IsNewest, WinsTies;
    AuditReplay(s, id);
    assert History(s) == s.flushed;
    LastActionIsLastSent(sent, id, k);
    FirstListedIsLastSentIff(history, sent, listed, from, n, id, k, j);
  }

  /** A flush with one event about the subscriber, later than the flushes before it, wins its ties. */
  lemma SingleEventWins(sent: seq<AuditRow>, id: string, k: nat)
    requires k < |sent| && forall i :: 0 <= i < k && IsAbout(sent[i], id) ==> sent[i].occurredAt < sent[k].occurredAt
    ensures WinsTies(sent, id, k)
  {
  }

  /**
   The other case: a reclaim's farewell and greeting are stamped alike, and the drawn ids decide which is
   listed first.
   */
  lemma ReclaimMayListBackwards(farewell: Event, greeting: Event, at: int)
    requires farewell.action == Disconnected && greeting.action == Connected
    requires farewell.subscriberId == greeting.subscriberId
    ensures var rows := [LogEvent("b", at, farewell), LogEvent("a", at, greeting)];
      var id := greeting.subscriberId;
      && SentInOrder(rows) && IsLastAbout(rows, id, 1) && !WinsTies(rows, id, 1)
      && Before(rows[1], rows[0])
  {
    var rows := [LogEvent("b", at, farewell), LogEvent("a", at, greeting)];
    assert Less("a", "b") && !Less("b", "a");
    assert IsAbout(rows[0], greeting.subscriberId) && IsAbout(rows[1], greeting.subscriberId);
  }

  // ---- what a flush records ----------------------------------------------------------------

  function StampedRows(events: seq<NewEvent<Event>>, now: int): (rows: seq<AuditRow>)
    ensures |rows| == |events|
    ensures forall i :: 0 <= i < |events| ==> rows[i] == Stamped(events[i], now)
  {
    seq(|events|, i requires 0 <= i < |events| => Stamped(events[i], now))
  }

  /** New ids, and no times of their own: what the route object hands to the log. */
  ghost predicate IsFlush(events: seq<NewEvent<Event>>, history: Table<Event>) {
    && (forall i :: 0 <= i < |events| ==> events[i].occurredAt.None? && events[i].id !in history)
    && (forall i, j :: 0 <= i < j < |events| ==> events[i].id != events[j].id)
  }

  /** The table has the history and the events, and nothing else. */
  ghost predicate HasFlush(t: Table<Event>, history: Table<Event>, events: seq<NewEvent<Event>>, now: int) {
    && Keyed(t)
    && (forall key :: key in history ==> key in t && t[key] == history[key])
    && (forall i :: 0 <= i < |events| ==> events[i].id in t && t[events[i].id] == Stamped(events[i], now))
    && (forall key :: key in t && key !in history ==> exists i :: 0 <= i < |events| && events[i].id == key)
  }

  lemma HasOneMore(t: Table<Event>, history: Table<Event>, events: seq<NewEvent<Event>>, now: int, e: NewEvent<Event>)
    requires HasFlush(t, history, events, now) && IsFlush(events + [e], history)
    ensures HasFlush(t[e.id := Stamped(e, now)], history, events + [e], now)
  {
    var all, u := events + [e], t[e.id := Stamped(e, now)];
    assert all[|events|] == e;
    forall key | key in u && key !in history ensures exists i :: 0 <= i < |all| && all[i].id == key {
      if key in t {
        var i :| 0 <= i < |events| && events[i].id == key;
        assert all[i].id == key;
      }
    }
  }

  lemma {:induction false} UpsertedHas(history: Table<Event>, events: seq<NewEvent<Event>>, now: int)
    requires Keyed(history) && IsFlush(events, history)
    ensures HasFlush(Upserted(history, events, now), history, events, now)
    decreases |events|
  {
    if events != [] {
      var front, last := events[..|events| - 1], events[|events| - 1];
      UpsertedHas(history, front, now);
      assert events == front + [last];
      HasOneMore(Upserted(history, front, now), history, front, now, last);
    }
  }

  lemma FlushedInOrder(history: Table<Event>, sent: seq<AuditRow>, events: seq<NewEvent<Event>>, now: int, id: string)
    requires SentInOrder(sent) && Records(history, sent, id) && IsFlush(events, history)
    requires forall i :: 0 <= i < |sent| ==> sent[i].occurredAt <= now
    ensures SentInOrder(sent + StampedRows(events, now))
  {
    var rows := StampedRows(events, now);
    var all := sent + rows;
    assert forall j :: |sent| <= j < |all| ==>
      all[j] == rows[j - |sent|] && all[j].occurredAt == now && all[j].id !in history;
    assert forall i :: 0 <= i < |sent| ==> all[i] == sent[i] && all[i].id in history;
  }

  /** Flushing in order keeps the rows in order and the history complete. */
  lemma FlushRecords(history: Table<Event>, sent: seq<AuditRow>, events: seq<NewEvent<Event>>, now: int, id: string)
    requires SentInOrder(sent) && Records(history, sent, id) && IsFlush(events, history)
    requires forall i :: 0 <= i < |sent| ==> sent[i].occurredAt <= now
    ensures SentInOrder(sent + StampedRows(events, now))
    ensures Records(Upserted(history, events, now), sent + StampedRows(events, now), id)
  {
    FlushedInOrder(history, sent, events, now, id);
    UpsertedHas(history, events, now);
    hide Upserted, SentInOrder, IsAbout;
    var rows := StampedRows(events, now);
    var all, t := sent + rows, Upserted(history, events, now);
    forall key | key in t && IsAbout(t[key], id) ensures t[key] in all {
      if key in history {
        assert history[key] in sent;
      } else {
        var i :| 0 <= i < |events| && events[i].id == key;
        assert all[|sent| + i] == rows[i];
      }
    }
  }
}
