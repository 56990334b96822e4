/**
 The log tables of the router index: connection audit events and inbound request
 metadata (src/connection-log-storage.ts, src/inbound-log-storage.ts).
 */
module LogStorage {
  import opened Wrappers
  import opened CappedLog

  const CONNECTION_LOG_RETENTION_MS := 90 * 24 * 60 * 60 * 1000
  const CONNECTION_LOG_MAX_EVENTS := 2000
  const INBOUND_LOG_RETENTION_MS := 7 * 24 * 60 * 60 * 1000
  const INBOUND_LOG_MAX_EVENTS := 5000
  const DASHBOARD_LIMIT := 200

  /** An event to insert; without a time of its own it is stamped with the time of the call. */
  datatype NewEvent<D> = NewEvent(id: string, occurredAt: Option<int>, data: D)

  function Stamped<D>(e: NewEvent<D>, now: int): LogEvent<D> {
    LogEvent(e.id, if e.occurredAt.Some? then e.occurredAt.value else now, e.data)
  }

  /** The table once the events are inserted, each replacing the row of its id, if any. */
  function Upserted<D>(table: Table<D>, events: seq<NewEvent<D>>, now: int): Table<D>
    decreases |events|
  {
    if events == [] then table
    else
      var last := Stamped(events[|events| - 1], now);
      Upserted(table, events[..|events| - 1], now)[last.id := last]
  }

  /** No event is older than the row it replaces, if it replaces one. */
  ghost predicate ReplacesNothingNewer<D>(table: Table<D>, events: seq<NewEvent<D>>, now: int) {
    forall i :: 0 <= i < |events| ==>
      var t := Upserted(table, events[..i], now);
      events[i].id in t ==> t[events[i].id].occurredAt <= Stamped(events[i], now).occurredAt
  }

  function ClampedLimit(limit: int, cap: nat): int { Max(1, Min(limit, cap)) }

  // ---- operations on a log and its history -------------------------------------------------

  datatype Log<D> = Log(rows: Table<D>, history: Table<D>, purgedAt: int)

  datatype Op<D> = Insert(events: seq<NewEvent<D>>, now: int) | List(limit: int, now: int)

  ghost function AfterInsert<D>(log: Log<D>, op: Op<D>): Table<D> {
    if op.Insert? then Upserted(log.rows, op.events, op.now) else log.rows
  }

  /** Both operations end in a purge; only an insert touches the history. */
  ghost predicate LogStep<D>(log: Log<D>, op: Op<D>, next: Log<D>, cap: nat, retention: nat) {
    && next.purgedAt == op.now
    && next.history == (if op.Insert? then Upserted(log.history, op.events, op.now) else log.history)
    && IsPurged(next.rows, AfterInsert(log, op), cap, op.now - retention)
  }

  ghost predicate Faithful<D>(log: Log<D>, cap: nat, retention: nat) {
    Keyed(log.rows) && Keyed(log.history) && Refines(log.rows, log.history, cap, log.purgedAt - retention)
  }

  /** Times do not run backwards, and no event replaces a newer one. */
  ghost predicate Orderly<D>(log: Log<D>, op: Op<D>) {
    log.purgedAt <= op.now && (op.Insert? ==> ReplacesNothingNewer(log.rows, op.events, op.now))
  }

  lemma {:induction false} UpsertedRefines<D>(log: Log<D>, events: seq<NewEvent<D>>, now: int, cap: nat, from: int)
    requires Keyed(log.rows) && Keyed(log.history) && Refines(log.rows, log.history, cap, from)
    requires ReplacesNothingNewer(log.rows, events, now)
    ensures var rows, history := Upserted(log.rows, events, now), Upserted(log.history, events, now);
      Keyed(rows) && Keyed(history) && Refines(rows, history, cap, from)
    decreases |events|
  {
    if events != [] {
      var front, last := events[..|events| - 1], events[|events| - 1];
      forall i | 0 <= i < |front| ensures front[..i] == events[..i] {
      }
      UpsertedRefines(log, front, now, cap, from);
      InsertRefines(Upserted(log.rows, front, now), Upserted(log.history, front, now), cap, from, Stamped(last, now));
    }
  }

  lemma {:induction false} UpsertedIsKeyed<D>(table: Table<D>, events: seq<NewEvent<D>>, now: int)
    requires Keyed(table)
    ensures Keyed(Upserted(table, events, now))
    decreases |events|
  {
    if events != [] {
      UpsertedIsKeyed(table, events[..|events| - 1], now);
    }
  }

  /** What an insert stores under an id: its last event of that id, at its own time or that of the call. */
  lemma {:induction false} LastInsertCounts<D>(table: Table<D>, events: seq<NewEvent<D>>, now: int, i: nat)
    requires i < |events| && forall j :: i < j < |events| ==> events[j].id != events[i].id
    ensures var t := Upserted(table, events, now);
      var e := events[i];
      && e.id in t && t[e.id].id == e.id && t[e.id].data == e.data
      && t[e.id].occurredAt == (match e.occurredAt case Some(at) => at case None => now)
    decreases |events|
  {
    if i < |events| - 1 {
      LastInsertCounts(table, events[..|events| - 1], now, i);
    }
  }

  /** A limit is met exactly as far as one and the cap allow. */
  lemma ClampsLimit(limit: int, cap: nat)
    requires cap >= 1
    ensures 1 <= ClampedLimit(limit, cap) <= cap
    ensures 1 <= limit <= cap ==> ClampedLimit(limit, cap) == limit
    ensures limit < 1 ==> ClampedLimit(limit, cap) == 1
    ensures limit > cap ==> ClampedLimit(limit, cap) == cap
  {
  }

  /** New ids replace nothing: the connection log, whose ids are drawn at random, is always orderly. */
  lemma {:induction false} FreshIdsReplaceNothing<D>(table: Table<D>, events: seq<NewEvent<D>>, now: int)
    requires forall i :: 0 <= i < |events| ==> events[i].id !in table
    requires forall i, j :: 0 <= i < j < |events| ==> events[i].id != events[j].id
    ensures ReplacesNothingNewer(table, events, now)
  {
    forall i | 0 <= i < |events| ensures events[i].id !in Upserted(table, events[..i], now) {
      UpsertedIds(table, events[..i], now, events[i].id);
    }
  }

  lemma {:induction false} UpsertedIds<D>(table: Table<D>, events: seq<NewEvent<D>>, now: int, id: string)
    requires forall i :: 0 <= i < |events| ==> events[i].id != id
    ensures id in Upserted(table, events, now) <==> id in table
    decreases |events|
  {
    if events != [] {
      UpsertedIds(table, events[..|events| - 1], now, id);
    }
  }

  lemma PurgedIsKeyed<D>(kept: Table<D>, table: Table<D>, cap: nat, from: int)
    requires Keyed(table) && IsPurged(kept, table, cap, from)
    ensures Keyed(kept) && |kept| <= cap
  {
  }

  lemma StepIsFaithful<D>(log: Log<D>, op: Op<D>, next: Log<D>, cap: nat, retention: nat)
    requires Faithful(log, cap, retention) && Orderly(log, op) && LogStep(log, op, next, cap, retention)
    ensures Faithful(next, cap, retention) && |next.rows| <= cap
  {
    hide Refines, ReplacesNothingNewer, IsPurged, Keyed;
    var from := log.purgedAt - retention;
    if op.Insert? {
      UpsertedRefines(log, op.events, op.now, cap, from);
    }
    var rows := AfterInsert(log, op);
    PurgedIsKeyed(next.rows, rows, cap, op.now - retention);
    PurgeRefines(next.rows, rows, next.history, cap, from, op.now - retention);
  }

  /** A run: the logs between the operations, one more than there are operations. */
  ghost predicate LogRun<D>(logs: seq<Log<D>>, ops: seq<Op<D>>, cap: nat, retention: nat) {
    && |logs| == |ops| + 1
    && logs[0].rows == map[] && logs[0].history == map[]
    && forall i :: 0 <= i < |ops| ==> Orderly(logs[i], ops[i]) && LogStep(logs[i], ops[i], logs[i + 1], cap, retention)
  }

  lemma {:induction false} RunIsFaithful<D>(logs: seq<Log<D>>, ops: seq<Op<D>>, cap: nat, retention: nat, i: nat)
    requires LogRun(logs, ops, cap, retention) && i <= |ops|
    ensures Faithful(logs[i], cap, retention) && |logs[i].rows| <= cap
    decreases i
  {
    if i > 0 {
      RunIsFaithful(logs, ops, cap, retention, i - 1);
      StepIsFaithful(logs[i - 1], ops[i - 1], logs[i], cap, retention);
    }
  }

  /** Rows just purged are their own window. */
  lemma PurgedIsCurrent<D>(kept: Table<D>, table: Table<D>, cap: nat, from: int)
    requires IsPurged(kept, table, cap, from)
    ensures Since(kept, from) == kept
  {
  }

  /**
   Whatever was inserted and listed before, a list is the newest `limit` events, at least one and at
   most the cap, of the never-purged history in the retention window.
   */
  lemma ListShowsHistory<D>(logs: seq<Log<D>>, ops: seq<Op<D>>, cap: nat, retention: nat, i: nat,
                            listed: seq<LogEvent<D>>)
    requires LogRun(logs, ops, cap, retention) && i < |ops| && ops[i].List? && cap >= 1
    requires IsNewest(listed, logs[i + 1].rows, ClampedLimit(ops[i].limit, cap))
    ensures IsNewest(listed, Since(logs[i].history, ops[i].now - retention), ClampedLimit(ops[i].limit, cap))
  {
    hide IsNewest, Refines, Keyed, Orderly, IsPurged;
    RunIsFaithful(logs, ops, cap, retention, i + 1);
    var from := ops[i].now - retention;
    PurgedIsCurrent(logs[i + 1].rows, logs[i].rows, cap, from);
    ListRefines(listed, logs[i + 1].rows, logs[i + 1].history, cap, from, from, ClampedLimit(ops[i].limit, cap));
  }

  /**
   An event that replaces a newer row can put an evicted event back among the newest: with a cap of 1,
   the history then shows event `a`, which the table no longer has.
   */
  lemma OlderReplacementShows()
    ensures var a, b, older := LogEvent("a", 10, 0), LogEvent("b", 20, 0), LogEvent("b", 5, 0);
      var table, history := map["b" := b], map["a" := a, "b" := b];
      && Refines(table, history, 1, 0)
      && IsNewest([a], history["b" := older], 1)
      && IsNewest([older], table["b" := older], 1)
  {
    var a, b, older := LogEvent("a", 10, 0), LogEvent("b", 20, 0), LogEvent("b", 5, 0);
    var table, history := map["b" := b], map["a" := a, "b" := b];
    assert "b" in After(table, a);
    assert |After(table, a)| >= 1 by {
      SubsetSize({"b"}, After(table, a));
    }
    assert |history["b" := older]| == 2 by {
      assert history["b" := older].Keys == {"a", "b"};
      assert |history["b" := older].Keys| == 2;
    }
  }

  // ---- the tables --------------------------------------------------------------------------

  ghost predicate IsOldest<D>(table: Table<D>, ids: set<string>, id: string)
    requires ids <= table.Keys
  {
    id in ids && forall other :: other in ids && other != id ==> Before(table[id], table[other])
  }

  ghost predicate IsLatest<D>(table: Table<D>, ids: set<string>, id: string)
    requires ids <= table.Keys
  {
    id in ids && forall other :: other in ids && other != id ==> Before(table[other], table[id])
  }

  lemma OldestWith<D>(table: Table<D>, ids: set<string>, first: string, some: string)
    requires Keyed(table) && ids + {some} <= table.Keys && some !in ids && IsOldest(table, ids, first)
    ensures IsOldest(table, ids + {some}, if Before(table[some], table[first]) then some else first)
  {
    BeforeIsTotal(table[first], table[some]);
    if Before(table[some], table[first]) {
      forall other | other in ids && other != first ensures Before(table[some], table[other]) {
        BeforeIsTransitive(table[some], table[first], table[other]);
      }
    }
  }

  lemma LatestWith<D>(table: Table<D>, ids: set<string>, last: string, some: string)
    requires Keyed(table) && ids + {some} <= table.Keys && some !in ids && IsLatest(table, ids, last)
    ensures IsLatest(table, ids + {some}, if Before(table[last], table[some]) then some else last)
  {
    BeforeIsTotal(table[last], table[some]);
    if Before(table[last], table[some]) {
      forall other | other in ids && other != last ensures Before(table[other], table[some]) {
        BeforeIsTransitive(table[other], table[last], table[some]);
      }
    }
  }

  lemma {:induction false} EndsExist<D>(table: Table<D>, ids: set<string>)
    requires Keyed(table) && ids != {} && ids <= table.Keys
    ensures exists id :: IsOldest(table, ids, id)
    ensures exists id :: IsLatest(table, ids, id)
    decreases ids
  {
    hide Before;
    var some :| some in ids;
    if ids == {some} {
      assert IsOldest(table, ids, some) && IsLatest(table, ids, some);
    } else {
      var rest := ids - {some};
      assert ids == rest + {some};
      EndsExist(table, rest);
      var first :| IsOldest(table, rest, first);
      OldestWith(table, rest, first, some);
      var last :| IsLatest(table, rest, last);
      LatestWith(table, rest, last, some);
    }
  }

  /** What is missing from the window is older than all that is kept. */
  ghost predicate Newest<D>(kept: Table<D>, window: Table<D>) {
    && (forall id :: id in kept ==> id in window && kept[id] == window[id])
    && (forall id, k :: id in window && id !in kept && k in kept ==> Before(window[id], window[k]))
  }

  lemma AllNewest<D>(window: Table<D>)
    ensures Newest(window, window)
  {
  }

  lemma DropOldest<D>(kept: Table<D>, window: Table<D>, id: string)
    requires Keyed(kept) && Newest(kept, window) && IsOldest(kept, kept.Keys, id)
    ensures Keyed(kept - {id}) && Newest(kept - {id}, window)
    ensures |kept - {id}| == |kept| - 1
  {
    assert (kept - {id}).Keys == kept.Keys - {id};
    assert |kept| == |kept.Keys| && |kept - {id}| == |(kept - {id}).Keys|;
  }

  lemma NewestIsPurged<D>(kept: Table<D>, table: Table<D>, cap: nat, from: int)
    requires Newest(kept, Since(table, from)) && |kept| == Min(cap, |Since(table, from)|)
    ensures IsPurged(kept, table, cap, from)
  {
  }

  /** The newest rows, picked one after the other; `left` are those still to pick from. */
  ghost predicate Picked<D>(window: Table<D>, listed: seq<LogEvent<D>>, left: set<string>) {
    && left <= window.Keys && |listed| + |left| == |window|
    && (forall i :: 0 <= i < |listed| ==> listed[i].id in window && window[listed[i].id] == listed[i])
    && (forall i, j :: 0 <= i < j < |listed| ==> Before(listed[j], listed[i]))
    && (forall i, id :: 0 <= i < |listed| && id in left ==> Before(window[id], listed[i]))
    && (forall id :: id in window && id !in left ==> window[id] in listed)
  }

  lemma PickNext<D>(window: Table<D>, listed: seq<LogEvent<D>>, left: set<string>, id: string)
    requires Keyed(window) && Picked(window, listed, left) && IsLatest(window, left, id)
    ensures Picked(window, listed + [window[id]], left - {id})
  {
    hide Before;
  }

  class LogTable<D(!new)> {
    const cap: nat
    const retention: nat
    var rows: Table<D>
    ghost var history: Table<D>
    ghost var purgedAt: int

    constructor (cap: nat, retention: nat)
      requires cap >= 1
      ensures Valid() && Contents().rows == map[] && Contents().history == map[]
      ensures this.cap == cap && this.retention == retention && Faithful(Contents(), cap, retention)
    {
      this.cap := cap;
      this.retention := retention;
      rows, history, purgedAt := map[], map[], 0;
    }

    ghost predicate Valid()
      reads this
    {
      cap >= 1 && Keyed(rows) && Keyed(history)
    }

    ghost function Contents(): Log<D>
      reads this
    {
      Log(rows, history, purgedAt)
    }

    /** Delete rows older than the window, then the oldest rows above the cap. */
    method Purge(now: int)
      requires Valid()
      modifies this`rows, this`purgedAt
      ensures Valid() && purgedAt == now
      ensures IsPurged(rows, old(rows), cap, now - retention)
    {
      hide Before, Newest, Keyed;
      var from := now - retention;
      ghost var window := Since(rows, from);
      rows := map id | id in rows && rows[id].occurredAt >= from :: rows[id];
      assert rows == window;
      AllNewest(window);
      hide Since;
      var overflow := |rows| - cap;
      while overflow > 0
        invariant Newest(rows, window) && Keyed(rows)
        invariant overflow == |rows| - cap && (|rows| >= cap || rows == window) && |rows| <= |window|
      {
        EndsExist(rows, rows.Keys);
        var id :| id in rows && forall other :: other in rows && other != id ==> Before(rows[id], rows[other]);
        DropOldest(rows, window, id);
        rows := rows - {id};
        overflow := overflow - 1;
      }
      NewestIsPurged(rows, old(rows), cap, from);
      purgedAt := now;
    }

    /** Insert the events one by one, each replacing the row of its id, then purge. */
    method InsertEvents(events: seq<NewEvent<D>>, now: int)
      requires Valid()
      modifies this
      ensures Valid() && LogStep(old(Contents()), Insert(events, now), Contents(), cap, retention)
      ensures old(Faithful(Contents(), cap, retention) && Orderly(Contents(), Insert(events, now))) ==>
        Faithful(Contents(), cap, retention)
    {
      hide Keyed, IsPurged, Refines, ReplacesNothingNewer;
      ghost var before := Contents();
      for i := 0 to |events|
        invariant rows == Upserted(before.rows, events[..i], now)
        invariant history == Upserted(before.history, events[..i], now)
        invariant purgedAt == before.purgedAt
      {
        var e := Stamped(events[i], now);
        rows, history := rows[e.id := e], history[e.id := e];
        assert events[..i + 1][..i] == events[..i];
      }
      assert events[..|events|] == events;
      UpsertedIsKeyed(before.rows, events, now);
      UpsertedIsKeyed(before.history, events, now);
      Purge(now);
      if Faithful(before, cap, retention) && Orderly(before, Insert(events, now)) {
        StepIsFaithful(before, Insert(events, now), Contents(), cap, retention);
      }
    }

    /** `WHERE occurred_at >= from ORDER BY occurred_at DESC, id DESC LIMIT n`. */
    method SelectNewest(from: int, n: nat) returns (listed: seq<LogEvent<D>>)
      requires Valid()
      ensures IsNewest(listed, Since(rows, from), n)
    {
      hide Before;
      var window := map id | id in rows && rows[id].occurredAt >= from :: rows[id];
      assert window == Since(rows, from) && Keyed(window);
      hide Since, Keyed;
      listed := [];
      var left := window.Keys;
      assert |left| == |window|;
      while |listed| < n && left != {}
        invariant Picked(window, listed, left) && |listed| <= n
        decreases left
      {
        EndsExist(window, left);
        var id :| id in left && forall other :: other in left && other != id ==> Before(window[other], window[id]);
        PickNext(window, listed, left, id);
        listed := listed + [window[id]];
        left := left - {id};
      }
    }

    /** Purge, then select. */
    method ListEvents(limit: int := DASHBOARD_LIMIT, now: int) returns (listed: seq<LogEvent<D>>)
      requires Valid()
      modifies this`rows, this`purgedAt
      ensures Valid() && LogStep(old(Contents()), List(limit, now), Contents(), cap, retention)
      ensures IsNewest(listed, rows, ClampedLimit(limit, cap))
      ensures old(Faithful(Contents(), cap, retention)) && old(purgedAt) <= now ==>
        && Faithful(Contents(), cap, retention)
        && IsNewest(listed, Since(history, now - retention), ClampedLimit(limit, cap))
    {
      hide IsNewest, Refines, IsPurged, Keyed;
      ghost var before := Contents();
      Purge(now);
      PurgedIsCurrent(rows, before.rows, cap, now - retention);
      listed := SelectNewest(now - retention, ClampedLimit(limit, cap));
      if Faithful(before, cap, retention) && before.purgedAt <= now {
        StepIsFaithful(before, List(limit, now), Contents(), cap, retention);
        ListRefines(listed, rows, history, cap, now - retention, now - retention, ClampedLimit(limit, cap));
      }
    }
  }

  /** The two log tables of the router index differ in their limits, and in where their ids come from. */
  method NewTables<C(!new), I(!new)>() returns (connections: LogTable<C>, inbound: LogTable<I>)
    ensures fresh(connections) && connections.Valid() && connections.cap == 2000
    ensures connections.retention == 7_776_000_000
    ensures fresh(inbound) && inbound.Valid() && inbound.cap == 5000 && inbound.retention == 604_800_000
    ensures Faithful(connections.Contents(), 2000, connections.retention)
    ensures Faithful(inbound.Contents(), 5000, inbound.retention)
  {
    connections := new LogTable<C>(CONNECTION_LOG_MAX_EVENTS, CONNECTION_LOG_RETENTION_MS);
    inbound := new LogTable<I>(INBOUND_LOG_MAX_EVENTS, INBOUND_LOG_RETENTION_MS);
  }
}
