/**
 A log table with a retention window and a cap on its rows, next to the history it
 would be without either (src/connection-log-storage.ts, src/inbound-log-storage.ts).
 Events are ordered by time and, within one millisecond, by id.
 */
module CappedLog {
  /** One row: its primary key, its time, and the columns that play no part here. */
  datatype LogEvent<D> = LogEvent(id: string, occurredAt: int, data: D)

  // ---- the order of rows ---------------------------------------------------------------

  /** SQL's order on text ids. */
  predicate Less(a: string, b: string) {
    b != "" && (a == "" || a[0] < b[0] || (a[0] == b[0] && Less(a[1..], b[1..])))
  }

  lemma {:induction false} LessIsTotal(a: string, b: string)
    ensures !Less(a, a)
    ensures a == b || Less(a, b) || Less(b, a)
    ensures !(Less(a, b) && Less(b, a))
  {
    if a != "" {
      LessIsTotal(a[1..], if b == "" then "" else b[1..]);
      assert a == [a[0]] + a[1..];
      if b != "" {
        assert b == [b[0]] + b[1..];
      }
    }
  }

  lemma {:induction false} LessIsTransitive(a: string, b: string, c: string)
    requires Less(a, b) && Less(b, c)
    ensures Less(a, c)
  {
    if a != "" && a[0] == b[0] == c[0] {
      LessIsTransitive(a[1..], b[1..], c[1..]);
    }
  }

  /** The texts agree before this place, where the first ends or has the smaller character. */
  predicate SmallerAt(a: string, b: string, k: nat) {
    k <= |a| && k < |b| && a[..k] == b[..k] && (k == |a| || a[k] < b[k])
  }

  /** The order is that of the first difference. */
  lemma {:induction false} LessIff(a: string, b: string)
    ensures Less(a, b) <==> exists k: nat :: SmallerAt(a, b, k)
  {
    if a != "" && b != "" {
      LessIff(a[1..], b[1..]);
      if k: nat :| SmallerAt(a[1..], b[1..], k) {
        if a[0] == b[0] {
          assert a[..k + 1] == [a[0]] + a[1..][..k] && b[..k + 1] == [b[0]] + b[1..][..k];
          assert SmallerAt(a, b, k + 1);
        }
      }
      if k: nat :| SmallerAt(a, b, k) {
        if k > 0 {
          assert a[..k][0] == a[0] && b[..k][0] == b[0];
          assert a[1..][..k - 1] == a[..k][1..] && b[1..][..k - 1] == b[..k][1..];
          assert SmallerAt(a[1..], b[1..], k - 1);
        }
      }
      if a[0] < b[0] {
        assert SmallerAt(a, b, 0);
      }
    } else if b != "" {
      assert SmallerAt(a, b, 0);
    }
  }

  predicate Before<D>(a: LogEvent<D>, b: LogEvent<D>) {
    a.occurredAt < b.occurredAt || (a.occurredAt == b.occurredAt && Less(a.id, b.id))
  }

  lemma BeforeIsTotal<D>(a: LogEvent<D>, b: LogEvent<D>)
    ensures !Before(a, a) && !(Before(a, b) && Before(b, a))
    ensures a.id == b.id || Before(a, b) || Before(b, a)
  {
    LessIsTotal(a.id, b.id);
  }

  lemma BeforeIsTransitive<D>(a: LogEvent<D>, b: LogEvent<D>, c: LogEvent<D>)
    requires Before(a, b) && Before(b, c)
    ensures Before(a, c)
  {
    if a.occurredAt == b.occurredAt == c.occurredAt {
      LessIsTransitive(a.id, b.id, c.id);
    }
  }

  // ---- tables and histories ------------------------------------------------------------

  type Table<D> = map<string, LogEvent<D>>

  ghost predicate Keyed<D>(table: Table<D>) {
    forall id :: id in table ==> table[id].id == id
  }

  ghost function Since<D>(table: Table<D>, from: int): (w: Table<D>)
    ensures Keyed(table) ==> Keyed(w)
  {
    map id | id in table && table[id].occurredAt >= from :: table[id]
  }

  ghost function After<D>(table: Table<D>, e: LogEvent<D>): set<string> {
    set id | id in table && Before(e, table[id])
  }

  /** Whatever the table lacks of the history is out of the window, or has `cap` newer rows in the table. */
  ghost predicate Refines<D>(table: Table<D>, history: Table<D>, cap: nat, from: int) {
    && (forall id :: id in table ==> id in history && table[id] == history[id])
    && (forall id :: id in history && id !in table ==>
          history[id].occurredAt < from || |After(table, history[id])| >= cap)
  }

  function Min(a: int, b: int): int { if a < b then a else b }
  function Max(a: int, b: int): int { if a < b then b else a }

  /** `rows` are the newest `n` of a table, newest first. */
  ghost predicate IsNewest<D>(rows: seq<LogEvent<D>>, table: Table<D>, n: nat) {
    && |rows| == Min(n, |table|)
    && (forall i :: 0 <= i < |rows| ==> rows[i].id in table && table[rows[i].id] == rows[i])
    && (forall i, j :: 0 <= i < j < |rows| ==> Before(rows[j], rows[i]))
    && (forall id :: id in table && table[id] !in rows ==> forall i :: 0 <= i < |rows| ==> Before(table[id], rows[i]))
  }

  lemma SubsetSize<T>(a: set<T>, b: set<T>)
    requires a <= b
    ensures |a| <= |b|
  {
    assert b == a + (b - a);
  }

  lemma MapSize<D>(a: Table<D>, b: Table<D>)
    requires a.Keys <= b.Keys
    ensures |a| <= |b|
  {
    SubsetSize(a.Keys, b.Keys);
    assert |a.Keys| == |a| && |b.Keys| == |b|;
  }

  ghost function IdsOf<D>(rows: seq<LogEvent<D>>): set<string> {
    set e | e in rows :: e.id
  }

  lemma {:induction false} IdsSize<D>(rows: seq<LogEvent<D>>)
    ensures |IdsOf(rows)| <= |rows|
    decreases |rows|
  {
    if rows == [] {
      assert IdsOf(rows) == {};
    } else {
      IdsSize(rows[1..]);
      assert rows == [rows[0]] + rows[1..];
      assert IdsOf(rows) == {rows[0].id} + IdsOf(rows[1..]);
    }
  }

  lemma NeverBoth<D>(rows: seq<LogEvent<D>>, e: LogEvent<D>)
    ensures forall i :: 0 <= i < |rows| ==> !(Before(rows[i], e) && Before(e, rows[i]))
  {
    forall i | 0 <= i < |rows| ensures !(Before(rows[i], e) && Before(e, rows[i])) {
      BeforeIsTotal(rows[i], e);
    }
  }

  /** Fewer than k + 1 rows are newer than the k-th of the newest. */
  lemma NewerThanRank<D>(rows: seq<LogEvent<D>>, table: Table<D>, n: nat, k: nat)
    requires Keyed(table) && IsNewest(rows, table, n) && k < |rows|
    ensures |After(table, rows[k])| <= k
  {
    var newer := IdsOf(rows[..k]);
    NeverBoth(rows, rows[k]);
    forall id | id in After(table, rows[k]) ensures id in newer {
      BeforeIsTotal(rows[k], table[id]);
      var i :| 0 <= i < |rows| && rows[i] == table[id];
      assert rows[..k][i] == rows[i];
    }
    SubsetSize(After(table, rows[k]), newer);
    IdsSize(rows[..k]);
  }

  /** A row with `cap` newer ones in the table comes after all of the newest `n <= cap`, and there are n of those. */
  lemma OutOfReach<D>(rows: seq<LogEvent<D>>, table: Table<D>, n: nat, cap: nat, e: LogEvent<D>)
    requires Keyed(table) && IsNewest(rows, table, n) && n <= cap && e.id !in table && |After(table, e)| >= cap
    ensures |rows| == n
    ensures forall i :: 0 <= i < |rows| ==> Before(e, rows[i])
  {
    SubsetSize(After(table, e), table.Keys);
    assert |table.Keys| == |table|;
    forall k | 0 <= k < |rows| ensures Before(e, rows[k]) {
      BeforeIsTotal(e, rows[k]);
      if Before(rows[k], e) {
        NewerThanRank(rows, table, n, k);
        forall id | id in After(table, e) ensures id in After(table, rows[k]) {
          BeforeIsTransitive(rows[k], e, table[id]);
        }
        SubsetSize(After(table, e), After(table, rows[k]));
        assert false;
      }
    }
  }

  lemma AfterWithinWindow<D>(table: Table<D>, e: LogEvent<D>, from: int)
    requires e.occurredAt >= from
    ensures After(Since(table, from), e) == After(table, e)
  {
  }

  /** Reading the newest rows of the table in the window is reading the newest of the whole history in the window. */
  lemma ListRefines<D>(rows: seq<LogEvent<D>>, table: Table<D>, history: Table<D>, cap: nat, purged: int, from: int,
                       n: nat)
    requires Keyed(table) && Keyed(history) && Refines(table, history, cap, purged) && purged <= from && n <= cap
    requires IsNewest(rows, Since(table, from), n)
    ensures IsNewest(rows, Since(history, from), n)
  {
    var mine, all := Since(table, from), Since(history, from);
    forall id | id in all && id !in mine
      ensures |rows| == n && forall i :: 0 <= i < |rows| ==> Before(all[id], rows[i])
    {
      AfterWithinWindow(table, all[id], from);
      OutOfReach(rows, mine, n, cap, all[id]);
    }
    MapSize(mine, all);
    if id :| id in all && id !in mine {
    } else {
      assert mine == all;
    }
  }

  /** What a purge leaves: the rows in the window, less the oldest above the cap. */
  ghost predicate IsPurged<D>(kept: Table<D>, table: Table<D>, cap: nat, from: int) {
    var window := Since(table, from);
    && (forall id :: id in kept ==> id in window && kept[id] == window[id])
    && |kept| == Min(cap, |window|)
    && (forall id, k :: id in window && id !in kept && k in kept ==> Before(window[id], window[k]))
  }

  lemma NewestKept<D>(kept: Table<D>, table: Table<D>, cap: nat, from: int, e: LogEvent<D>)
    requires Keyed(table) && IsPurged(kept, table, cap, from)
    requires e.id !in kept && e.occurredAt >= from
    requires e.id in table ==> table[e.id] == e
    requires e.id !in table ==> |After(table, e)| >= cap
    ensures |After(kept, e)| >= cap
  {
    var window := Since(table, from);
    AfterWithinWindow(table, e, from);
    SubsetSize(After(table, e), window.Keys);
    assert |window.Keys| == |window| && |kept.Keys| == |kept|;
    if e.id in table {
      assert e.id in window;
      if |window| <= cap {
        assert kept.Keys <= window.Keys;
        EqualSize(kept.Keys, window.Keys);
        assert false;
      }
      assert After(kept, e) == kept.Keys;
    } else if exists k :: k in kept && !Before(e, kept[k]) {
      var k :| k in kept && !Before(e, kept[k]);
      BeforeIsTotal(e, kept[k]);
      forall id | id in After(table, e) ensures id in kept && id != k {
        BeforeIsTransitive(kept[k], e, table[id]);
        BeforeIsTotal(kept[k], table[id]);
        BeforeIsTotal(kept[k], kept[k]);
        assert id in window;
      }
      SubsetSize(After(table, e) + {k}, kept.Keys);
      assert false;
    } else {
      assert After(kept, e) == kept.Keys;
    }
  }

  lemma EqualSize<T>(a: set<T>, b: set<T>)
    requires a <= b && |a| >= |b|
    ensures a == b
  {
    assert b == a + (b - a);
  }

  /** Purging at a later time keeps the refinement. */
  lemma PurgeRefines<D>(kept: Table<D>, table: Table<D>, history: Table<D>, cap: nat, purged: int, from: int)
    requires Keyed(table) && Keyed(history) && Refines(table, history, cap, purged) && purged <= from
    requires IsPurged(kept, table, cap, from)
    ensures Refines(kept, history, cap, from)
  {
    forall id | id in history && id !in kept && history[id].occurredAt >= from
      ensures |After(kept, history[id])| >= cap
    {
      NewestKept(kept, table, cap, from, history[id]);
    }
  }

  // ---- inserting ------------------------------------------------------------------------

  lemma InsertGrows<D>(table: Table<D>, e: LogEvent<D>, x: LogEvent<D>)
    requires Keyed(table) && (e.id in table && Before(x, table[e.id]) ==> Before(x, e))
    ensures |After(table[e.id := e], x)| >= |After(table, x)|
  {
    SubsetSize(After(table, x), After(table[e.id := e], x));
  }

  /** A row is added, or replaces one that is not newer. */
  lemma InsertRefines<D>(table: Table<D>, history: Table<D>, cap: nat, from: int, e: LogEvent<D>)
    requires Keyed(table) && Keyed(history) && Refines(table, history, cap, from)
    requires e.id in table ==> table[e.id].occurredAt <= e.occurredAt
    ensures Refines(table[e.id := e], history[e.id := e], cap, from)
  {
    forall id | id in history && id !in table && id != e.id && history[id].occurredAt >= from
      ensures |After(table[e.id := e], history[id])| >= cap
    {
      InsertGrows(table, e, history[id]);
    }
  }

  /** An event of the window that the table no longer has. */
  ghost predicate Evicted<D>(table: Table<D>, history: Table<D>, from: int, id: string) {
    id in history && id !in table && history[id].occurredAt >= from
  }

  /** An evicted event is older than every row, and the table is full. */
  lemma EvictedIsOldest<D>(table: Table<D>, history: Table<D>, cap: nat, from: int, id: string)
    requires Refines(table, history, cap, from) && |table| <= cap && Evicted(table, history, from, id)
    ensures |table| == cap && After(table, history[id]) == table.Keys
  {
    SubsetSize(After(table, history[id]), table.Keys);
    assert |table.Keys| == |table|;
    EqualSize(After(table, history[id]), table.Keys);
  }

  lemma EvictedAfterReplacing<D>(table: Table<D>, x: LogEvent<D>, cap: nat, e: LogEvent<D>)
    requires Keyed(table) && |table| == cap && e.id in table && After(table, x) == table.Keys
    ensures |After(table[e.id := e], x)| >= cap <==> Before(x, e)
  {
    var updated := table[e.id := e];
    assert updated.Keys == table.Keys && |updated.Keys| == cap by {
      assert |table.Keys| == |table|;
    }
    if Before(x, e) {
      assert After(updated, x) == updated.Keys;
    } else {
      assert e.id !in After(updated, x);
      SubsetSize(After(updated, x) + {e.id}, updated.Keys);
    }
  }

  /**
   Exactly when replacing a row keeps the refinement: the new row has to be newer than every event
   evicted from the window.
   */
  lemma ReplaceRefinesIff<D>(table: Table<D>, history: Table<D>, cap: nat, from: int, e: LogEvent<D>)
    requires Keyed(table) && Keyed(history) && Refines(table, history, cap, from)
    requires |table| <= cap && e.id in table
    ensures Refines(table[e.id := e], history[e.id := e], cap, from)
       <==> forall id :: Evicted(table, history, from, id) ==> Before(history[id], e)
  {
    hide After, Before;
    var updated, after := table[e.id := e], history[e.id := e];
    assert updated.Keys == table.Keys;
    forall id | Evicted(table, history, from, id)
      ensures |After(updated, history[id])| >= cap <==> Before(history[id], e)
    {
      EvictedIsOldest(table, history, cap, from, id);
      EvictedAfterReplacing(table, history[id], cap, e);
    }
    if Refines(updated, after, cap, from) {
      forall id | Evicted(table, history, from, id) ensures Before(history[id], e) {
        assert id in after && id !in updated && after[id] == history[id];
      }
    }
  }

  /** A condition on the table alone: it has room, or the new row is newer than some other row. */
  lemma ReplaceRefinesIfNotOldest<D>(table: Table<D>, history: Table<D>, cap: nat, from: int, e: LogEvent<D>)
    requires Keyed(table) && Keyed(history) && Refines(table, history, cap, from)
    requires |table| <= cap && e.id in table
    requires |table| < cap || exists other :: other in table && other != e.id && Before(table[other], e)
    ensures Refines(table[e.id := e], history[e.id := e], cap, from)
  {
    forall id | Evicted(table, history, from, id) ensures Before(history[id], e) {
      EvictedIsOldest(table, history, cap, from, id);
      var other :| other in table && other != e.id && Before(table[other], e);
      assert other in After(table, history[id]);
      BeforeIsTransitive(history[id], table[other], e);
    }
    ReplaceRefinesIff(table, history, cap, from, e);
  }

  // ---- what is listed is determined -------------------------------------------------------

  /** There is only one list of the newest rows. */
  lemma {:induction false} NewestIsUnique<D>(a: seq<LogEvent<D>>, b: seq<LogEvent<D>>, table: Table<D>, n: nat)
    requires Keyed(table) && IsNewest(a, table, n) && IsNewest(b, table, n)
    ensures a == b
  {
    forall k | 0 <= k < |a| ensures a[k] == b[k] {
      SameRank(a, b, table, n, k);
    }
  }

  lemma {:induction false} SameRank<D>(a: seq<LogEvent<D>>, b: seq<LogEvent<D>>, table: Table<D>, n: nat, k: nat)
    requires Keyed(table) && IsNewest(a, table, n) && IsNewest(b, table, n) && k < |a|
    ensures a[k] == b[k]
    decreases k
  {
    forall i | 0 <= i < k ensures a[i] == b[i] {
      SameRank(a, b, table, n, i);
    }
    if a[k].id != b[k].id {
      BeforeIsTotal(a[k], b[k]);
      if Before(a[k], b[k]) {
        NotLater(a, b, table, n, k);
      } else {
        NotLater(b, a, table, n, k);
      }
      assert false;
    }
  }

  lemma NotLater<D>(a: seq<LogEvent<D>>, b: seq<LogEvent<D>>, table: Table<D>, n: nat, k: nat)
    requires Keyed(table) && IsNewest(a, table, n) && IsNewest(b, table, n) && k < |a|
    requires forall i :: 0 <= i < k ==> a[i] == b[i]
    ensures !Before(a[k], b[k])
  {
    if Before(a[k], b[k]) {
      BeforeIsTotal(a[k], b[k]);
      assert b[k].id in table && table[b[k].id] == b[k];
      NeverBoth(a, a[k]);
      NeverBoth(a, b[k]);
      if i :| 0 <= i < |a| && a[i] == b[k] {
        assert false;
      }
    }
  }
}
