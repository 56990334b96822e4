/**
 `reclaimOrCreate` split where it awaits a hash (src/durable-object.ts): it looks its environment up in
 one step and writes in another, and other handlers run in between. The table is cut down to ids and
 environments; its unique index on environments is what the writes can run into.
 */
module SplitJoin {
  import opened Wrappers

  type Environments = map<string, Option<string>>

  /** A join between its lookup and its write: what it asked for, and the row it found. */
  datatype Joining = Joining(environmentId: Option<string>, existing: Option<string>)

  datatype State = State(rows: Environments, joining: map<nat, Joining>, usedIds: set<string>)

  datatype Step =
    | Look(ticket: nat, environmentId: Option<string>, existing: Option<string>)
    | Write(ticket: nat, newId: string)
    | Remove(id: string)                  // a purge, a deregistration or a socket's end

  ghost predicate Unique(rows: Environments) {
    forall a, b :: a in rows && b in rows && rows[a].Some? && rows[a] == rows[b] ==> a == b
  }

  predicate IsTaken(rows: Environments, environmentId: Option<string>) {
    environmentId.Some? && exists id :: id in rows && rows[id] == environmentId
  }

  ghost predicate Enabled(s: State, step: Step) {
    match step
    case Look(ticket, environmentId, existing) =>
      && ticket !in s.joining
      && (existing.Some? ==> environmentId.Some? && existing.value in s.rows && s.rows[existing.value] == environmentId)
      && (existing.None? ==> !IsTaken(s.rows, environmentId))
    case Write(ticket, newId) => ticket in s.joining && newId !in s.usedIds
    case Remove(_) => true
  }

  /** The rows a write asks for, before the unique index is consulted. */
  function Written(s: State, j: Joining, newId: string): Environments {
    if j.existing.None? then s.rows[newId := j.environmentId]
    else if j.existing.value in s.rows then s.rows[j.existing.value := j.environmentId]
    else s.rows
  }

  /** The unique index lets a write through only if the environment has no other row. */
  predicate IndexAllows(s: State, j: Joining, newId: string) {
    var target := if j.existing.None? then newId else j.existing.value;
    || (j.existing.Some? && j.existing.value !in s.rows)
    || j.environmentId.None? || !exists id :: id in s.rows && id != target && s.rows[id] == j.environmentId
  }

  /** What a join is told: the subscriber it has, or the error that the unique index raises. */
  datatype Answer = Joined(subscriberId: string) | Failed

  function AnswerOf(s: State, j: Joining, newId: string): Answer {
    if !IndexAllows(s, j, newId) then Failed
    else Joined(if j.existing.None? then newId else j.existing.value)
  }

  ghost function Next(s: State, step: Step): State
    requires Enabled(s, step)
  {
    match step
    case Look(ticket, environmentId, existing) => s.(joining := s.joining[ticket := Joining(environmentId, existing)])
    case Write(ticket, newId) =>
      var j := s.joining[ticket];
      State(if IndexAllows(s, j, newId) then Written(s, j, newId) else s.rows, s.joining - {ticket},
            s.usedIds + {newId})
    case Remove(id) => s.(rows := s.rows - {id})
  }

  ghost predicate Runs(s: State, steps: seq<Step>)
    decreases |steps|
  {
    steps == [] || (Enabled(s, steps[0]) && Runs(Next(s, steps[0]), steps[1..]))
  }

  ghost function After(s: State, steps: seq<Step>): State
    requires Runs(s, steps)
    decreases |steps|
  {
    if steps == [] then s else After(Next(s, steps[0]), steps[1..])
  }

  /** A row never changes its environment, and a join that found a row still means that environment. */
  ghost predicate Inv(s: State) {
    && Unique(s.rows)
    && (forall id :: id in s.rows ==> id in s.usedIds)
    && (forall t :: t in s.joining && s.joining[t].existing.Some? ==>
          && s.joining[t].existing.value in s.usedIds
          && (s.joining[t].existing.value in s.rows ==>
                s.rows[s.joining[t].existing.value] == s.joining[t].environmentId))
  }

  lemma StepKeeps(s: State, step: Step)
    requires Inv(s) && Enabled(s, step)
    ensures Inv(Next(s, step))
  {
  }

  /** Environments stay unique over every interleaving of lookups, writes and removals. */
  lemma {:induction false} RunKeeps(s: State, steps: seq<Step>)
    requires Inv(s) && Runs(s, steps)
    ensures Inv(After(s, steps)) && Unique(After(s, steps).rows)
    decreases |steps|
  {
    if steps != [] {
      StepKeeps(s, steps[0]);
      RunKeeps(Next(s, steps[0]), steps[1..]);
    }
  }

  /**
   The unique index never stops the UPDATE of a reclaim; it stops an INSERT exactly when the environment
   got a row meanwhile.
   */
  lemma IndexStopsOnlyInserts(s: State, steps: seq<Step>, ticket: nat, newId: string)
    requires Inv(s) && Runs(s, steps)
    requires ticket in After(s, steps).joining && newId !in After(s, steps).usedIds
    ensures var t := After(s, steps);
      var j := t.joining[ticket];
      IndexAllows(t, j, newId) <==> j.existing.Some? || !IsTaken(t.rows, j.environmentId)
  {
    RunKeeps(s, steps);
  }

  ghost predicate Undisturbed(s: State, steps: seq<Step>, ticket: nat)
    requires Runs(s, steps)
    decreases |steps|
  {
    || steps == []
    || (!(steps[0].Write? && steps[0].ticket == ticket) && Undisturbed(Next(s, steps[0]), steps[1..], ticket))
  }

  /** The row a join found is removed before the join writes. */
  ghost predicate Removes(steps: seq<Step>, id: string) {
    exists i :: 0 <= i < |steps| && steps[i] == Remove(id)
  }

  lemma {:induction false} FoundRowStays(s: State, steps: seq<Step>, ticket: nat, id: string)
    requires Inv(s) && Runs(s, steps) && Undisturbed(s, steps, ticket)
    requires ticket in s.joining && s.joining[ticket].existing == Some(id)
    ensures ticket in After(s, steps).joining && After(s, steps).joining[ticket] == s.joining[ticket]
    ensures id in After(s, steps).rows <==> id in s.rows && !Removes(steps, id)
    decreases |steps|
  {
    if steps != [] {
      var next := Next(s, steps[0]);
      StepKeeps(s, steps[0]);
      assert id in next.rows <==> id in s.rows && steps[0] != Remove(id);
      FoundRowStays(next, steps[1..], ticket, id);
      assert Removes(steps, id) <==> steps[0] == Remove(id) || Removes(steps[1..], id) by {
        if i :| 0 <= i < |steps| && steps[i] == Remove(id) {
          assert i == 0 || steps[1..][i - 1] == Remove(id);
        }
        if i :| 0 <= i < |steps[1..]| && steps[1..][i] == Remove(id) {
          assert steps[i + 1] == Remove(id);
        }
      }
    }
  }

  /**
   A reclaim is told that it succeeded whatever happened since its lookup, yet it has a row exactly when
   nobody removed the one it found in between.
   */
  lemma ReclaimHasRowIff(s: State, look: Step, steps: seq<Step>, newId: string)
    requires Inv(s) && Enabled(s, look) && look.Look? && look.existing.Some?
    requires Runs(Next(s, look), steps) && Undisturbed(Next(s, look), steps, look.ticket)
    requires newId !in After(Next(s, look), steps).usedIds
    ensures var t := After(Next(s, look), steps);
      var write := Write(look.ticket, newId);
      && Enabled(t, write)
      && AnswerOf(t, t.joining[look.ticket], newId) == Joined(look.existing.value)
      && (look.existing.value in Next(t, write).rows <==> !Removes(steps, look.existing.value))
  {
    StepKeeps(s, look);
    FoundRowStays(Next(s, look), steps, look.ticket, look.existing.value);
    RunKeeps(Next(s, look), steps);
  }

  /** A join that finds no row is told that it succeeded exactly when it has one. */
  lemma NewJoinHasRowIff(s: State, steps: seq<Step>, ticket: nat, newId: string)
    requires Inv(s) && Runs(s, steps)
    requires var t := After(s, steps);
      ticket in t.joining && t.joining[ticket].existing.None? && newId !in t.usedIds
    ensures var t := After(s, steps);
      AnswerOf(t, t.joining[ticket], newId) == Joined(newId) <==> newId in Next(t, Write(ticket, newId)).rows
  {
    RunKeeps(s, steps);
  }

  /** Looked up, removed, written: the answer is success, and there is no row. */
  lemma RemovedRowIsAnswered(id: string, environmentId: string, ticket: nat, newId: string)
    requires id != newId
    ensures var s := State(map[id := Some(environmentId)], map[], {id});
      var look, remove, write := Look(ticket, Some(environmentId), Some(id)), Remove(id), Write(ticket, newId);
      && Inv(s) && Runs(s, [look, remove, write])
      && var t := Next(Next(s, look), remove);
         AnswerOf(t, t.joining[ticket], newId) == Joined(id) && id !in Next(t, write).rows
  {
    var s := State(map[id := Some(environmentId)], map[], {id});
    var look, remove, write := Look(ticket, Some(environmentId), Some(id)), Remove(id), Write(ticket, newId);
    var t := Next(Next(s, look), remove);
    assert [look, remove, write][1..] == [remove, write] && [remove, write][1..] == [write] && [write][1..] == [];
    assert Runs(Next(t, write), []);
    assert Runs(t, [write]);
    assert Runs(Next(s, look), [remove, write]);
  }
}
