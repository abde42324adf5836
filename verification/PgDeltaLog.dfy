/**
 * The same log on Postgres at READ COMMITTED, where appends of many replicas overlap.
 *
 * A statement takes its snapshot in one step and meets the primary key in a later one; the row it
 * inserts is visible to others only once its transaction commits. A second insert of a held key
 * waits, so it takes no step until the holder commits or rolls back.
 */
module PgDeltaLogs {
  import opened Wrappers

  datatype Call =
    | Appending(version: int)
    | Planned(version: int, seen: int)
    | Holding(version: int)
    | Lost(version: int, seen: int)
    | Conflict(version: int, seen: int, head: int)
    | Won(version: int)
    | RolledBack(version: int)
    | Removing(version: int)
    | RemovalPlanned(version: int, target: Option<nat>)
    | Removed(version: int)

  /** Committed rows, each with the call that wrote it, and the calls in flight. */
  datatype System = System(rows: map<int, nat>, calls: map<nat, Call>)

  const Init: System := System(map[], map[])

  datatype Action =
    | Start(id: nat, version: int)
    | StartRemove(id: nat, version: int)
    | Snapshot(id: nat)
    | Insert(id: nat)
    | Commit(id: nat)
    | Rollback(id: nat)
    | ReadHead(id: nat)

  ghost predicate IsMax(rows: map<int, nat>, m: int) {
    m in rows && forall v :: v in rows ==> v <= m
  }

  /** `COALESCE(MAX(version), 0)` over the committed rows. */
  ghost function Head(rows: map<int, nat>): int {
    if exists m :: IsMax(rows, m) then (var m :| IsMax(rows, m); m) else 0
  }

  ghost predicate Held(s: System, version: int) {
    exists id :: id in s.calls && s.calls[id] == Holding(version)
  }

  /** The row a removal found in its snapshot is still there when it deletes it. */
  ghost predicate Deletes(s: System, id: nat) {
    && id in s.calls && s.calls[id].RemovalPlanned? && s.calls[id].version in s.rows
    && s.calls[id].target == Some(s.rows[s.calls[id].version])
  }

  ghost function Step(s: System, a: Action): System {
    match a
    case Start(id, v) => if id in s.calls then s else s.(calls := s.calls[id := Appending(v)])
    case StartRemove(id, v) => if id in s.calls then s else s.(calls := s.calls[id := Removing(v)])
    case Snapshot(id) =>
      if id !in s.calls then s
      else if s.calls[id].Appending? then s.(calls := s.calls[id := Planned(s.calls[id].version, Head(s.rows))])
      else if s.calls[id].Removing? then
        var v := s.calls[id].version;
        s.(calls := s.calls[id := RemovalPlanned(v, if v in s.rows && v == Head(s.rows) then Some(s.rows[v]) else None)])
      else s
    case Insert(id) =>
      if id !in s.calls || !s.calls[id].Planned? then s
      else
        var v, seen := s.calls[id].version, s.calls[id].seen;
        if seen != v - 1 || v in s.rows then s.(calls := s.calls[id := Lost(v, seen)])
        else if Held(s, v) then s
        else s.(calls := s.calls[id := Holding(v)])
    case Commit(id) =>
      if id !in s.calls then s
      else if s.calls[id].Holding? then
        var v := s.calls[id].version;
        System(s.rows[v := id], s.calls[id := Won(v)])
      else if s.calls[id].RemovalPlanned? then
        var v := s.calls[id].version;
        System(if Deletes(s, id) then s.rows - {v} else s.rows, s.calls[id := Removed(v)])
      else s
    case Rollback(id) =>
      if id in s.calls && s.calls[id].Holding? then s.(calls := s.calls[id := RolledBack(s.calls[id].version)]) else s
    case ReadHead(id) =>
      if id in s.calls && s.calls[id].Lost?
      then s.(calls := s.calls[id := Conflict(s.calls[id].version, s.calls[id].seen, Head(s.rows))])
      else s
  }

  ghost function Run(s: System, actions: seq<Action>): System {
    if actions == [] then s
    else Step(Run(s, actions[..|actions| - 1]), actions[|actions| - 1])
  }

  // ---------------------------------------------------------------- no gap

  ghost predicate GapFree(rows: map<int, nat>) {
    forall v :: v in rows <==> 1 <= v <= |rows|
  }

  ghost predicate SoundCall(s: System, id: nat, c: Call) {
    match c
    case Planned(v, seen) => seen == v - 1 ==> 0 <= seen <= |s.rows|
    case Holding(v) => v == |s.rows| + 1
    case _ => true
  }

  ghost predicate Inv(s: System) {
    && GapFree(s.rows)
    && (forall id :: id in s.calls ==> SoundCall(s, id, s.calls[id]))
    && (forall id, id' :: id in s.calls && id' in s.calls && s.calls[id].Holding? && s.calls[id'].Holding? ==> id == id')
  }

  lemma HeadOfGapFree(rows: map<int, nat>)
    requires GapFree(rows)
    ensures Head(rows) == |rows|
  {
    if |rows| > 0 {
      assert IsMax(rows, |rows|);
    }
  }

  /** An append that saw `v` as the head and may still insert `v + 1`. */
  ghost predicate Overlaps(s: System, v: int) {
    exists id :: id in s.calls && (s.calls[id] == Planned(v + 1, v) || s.calls[id] == Holding(v + 1))
  }

  /** A removal about to delete its row while an append that saw that row as the head is in flight. */
  ghost predicate RacingRemoval(s: System, a: Action) {
    a.Commit? && Deletes(s, a.id) && (s.calls[a.id].version != |s.rows| || Overlaps(s, s.calls[a.id].version))
  }

  lemma StepKeeps(s: System, a: Action)
    requires Inv(s) && !RacingRemoval(s, a)
    ensures Inv(Step(s, a))
  {
    HeadOfGapFree(s.rows);
    match a
    case Commit(id) =>
      if id in s.calls && s.calls[id].Holding? {
      } else if Deletes(s, id) {
        CommitRemovalKeeps(s, id);
      }
    case Insert(id) =>
    case Start(_, _) =>
    case StartRemove(_, _) =>
    case Snapshot(_) =>
    case Rollback(_) =>
    case ReadHead(_) =>
  }

  lemma CommitRemovalKeeps(s: System, id: nat)
    requires Inv(s) && Deletes(s, id) && !RacingRemoval(s, Commit(id))
    ensures Inv(Step(s, Commit(id)))
  {
  }

  /** Along a run, no removal commits while it races with an append. */
  ghost predicate NoRaces(s: System, actions: seq<Action>) {
    forall k :: 0 <= k < |actions| ==> !RacingRemoval(Run(s, actions[..k]), actions[k])
  }

  lemma {:induction false} RunKeeps(s: System, actions: seq<Action>)
    requires Inv(s) && NoRaces(s, actions)
    ensures Inv(Run(s, actions))
  {
    if actions != [] {
      var shorter := actions[..|actions| - 1];
      forall k | 0 <= k < |shorter| ensures !RacingRemoval(Run(s, shorter[..k]), shorter[k]) {
        assert shorter[..k] == actions[..k];
      }
      RunKeeps(s, shorter);
      StepKeeps(Run(s, shorter), actions[|actions| - 1]);
    }
  }

  /** The log is 1 up to the head after any interleaving in which no removal commits under an append that saw its row. */
  lemma {:induction false} LogStaysGapFree(actions: seq<Action>)
    requires NoRaces(Init, actions)
    ensures GapFree(Run(Init, actions).rows)
  {
    RunKeeps(Init, actions);
  }

  // ---------------------------------------------------------------- append races

  ghost predicate AppendAction(a: Action) { !a.StartRemove? }

  ghost predicate AppendOnly(actions: seq<Action>) {
    forall k :: 0 <= k < |actions| ==> AppendAction(actions[k])
  }

  ghost predicate NoRemovals(s: System) {
    forall id :: id in s.calls ==> !s.calls[id].RemovalPlanned? && !s.calls[id].Removing?
  }

  lemma {:induction false} AppendsKeep(s: System, actions: seq<Action>)
    requires Inv(s) && NoRemovals(s) && AppendOnly(actions)
    ensures Inv(Run(s, actions)) && NoRemovals(Run(s, actions))
  {
    if actions != [] {
      AppendsKeep(s, actions[..|actions| - 1]);
      assert AppendAction(actions[|actions| - 1]);
      StepKeeps(Run(s, actions[..|actions| - 1]), actions[|actions| - 1]);
    }
  }

  /** A call that won owns its row, and a call whose snapshot was right loses only to an owner of its version. */
  ghost predicate DecidedCall(s: System, id: nat, c: Call) {
    match c
    case Won(v) => v in s.rows && s.rows[v] == id
    case Lost(v, seen) => seen == v - 1 ==> v in s.rows
    case Conflict(v, seen, head) => seen == v - 1 ==> v in s.rows && v <= head
    case _ => true
  }

  ghost predicate Decided(s: System) {
    && (forall v :: v in s.rows ==> s.rows[v] in s.calls && s.calls[s.rows[v]] == Won(v))
    && (forall id :: id in s.calls ==> DecidedCall(s, id, s.calls[id]))
  }

  lemma StepDecides(s: System, a: Action)
    requires Inv(s) && NoRemovals(s) && Decided(s)
    ensures Decided(Step(s, a))
  {
    HeadOfGapFree(s.rows);
    var s' := Step(s, a);
    if a.Commit? && a.id in s.calls && s.calls[a.id].Holding? {
      assert SoundCall(s, a.id, s.calls[a.id]);
      assert s.calls[a.id].version !in s.rows;
    }
    forall id | id in s'.calls ensures DecidedCall(s', id, s'.calls[id]) {
      assert id in s.calls ==> DecidedCall(s, id, s.calls[id]);
    }
  }

  lemma {:induction false} AppendsAreDecided(actions: seq<Action>)
    requires AppendOnly(actions)
    ensures Decided(Run(Init, actions))
  {
    if actions != [] {
      var shorter := actions[..|actions| - 1];
      AppendsAreDecided(shorter);
      AppendsKeep(Init, shorter);
      StepDecides(Run(Init, shorter), actions[|actions| - 1]);
    }
  }

  /**
   * Whatever appends interleave, versions are exactly 1 up to the head, each won by one call; a call
   * that ended otherwise rolled back or was told of a conflict, and if it had started from the right
   * head then its version belongs to another call and lies within the head it was told.
   */
  lemma {:induction false} AppendRaces(actions: seq<Action>, id: nat)
    requires AppendOnly(actions) && id in Run(Init, actions).calls
    ensures var s := Run(Init, actions);
      && GapFree(s.rows)
      && (forall v :: v in s.rows && s.rows[v] == id <==> s.calls[id] == Won(v))
      && (s.calls[id].Conflict? && s.calls[id].seen == s.calls[id].version - 1 ==>
            s.calls[id].version in s.rows && s.rows[s.calls[id].version] != id && s.calls[id].version <= s.calls[id].head)
  {
    AppendsKeep(Init, actions);
    AppendsAreDecided(actions);
    assert DecidedCall(Run(Init, actions), id, Run(Init, actions).calls[id]);
  }

  // ---------------------------------------------------------------- removal against an append in flight

  ghost predicate IsRemoval(s: System, id: nat) {
    id in s.calls && (s.calls[id].Removing? || s.calls[id].RemovalPlanned?)
  }

  ghost predicate MovesAnAppend(s: System, a: Action) {
    !a.StartRemove? && !IsRemoval(s, a.id)
  }

  /** Every step is one of an append; the removals in flight at `s` stay where they are. */
  ghost predicate MovesAppends(s: System, actions: seq<Action>) {
    forall k :: 0 <= k < |actions| ==> MovesAnAppend(s, actions[k])
  }

  /** Some continuation by appends alone leaves a hole. */
  ghost predicate CanLeaveHole(s: System) {
    exists actions :: MovesAppends(s, actions) && !GapFree(Run(s, actions).rows)
  }

  lemma {:induction false} AppendMovesKeep(s: System, actions: seq<Action>)
    requires Inv(s) && MovesAppends(s, actions)
    ensures Inv(Run(s, actions))
    ensures forall id :: IsRemoval(Run(s, actions), id) ==> IsRemoval(s, id)
  {
    if actions != [] {
      AppendMovesKeep(s, actions[..|actions| - 1]);
      assert MovesAnAppend(s, actions[|actions| - 1]);
      StepKeeps(Run(s, actions[..|actions| - 1]), actions[|actions| - 1]);
    }
  }

  /**
   * A removal that is about to delete its row opens the way to a hole exactly when the head has moved
   * past that row or an append that saw it as the head is still in flight; the statement's own guard
   * excludes neither. Other removals may be in flight.
   */
  lemma RemovalLeavesHoleIffOverlapped(s: System, id: nat)
    requires Inv(s) && Deletes(s, id)
    ensures CanLeaveHole(Step(s, Commit(id))) <==> s.calls[id].version != |s.rows| || Overlaps(s, |s.rows|)
  {
    var v := s.calls[id].version;
    var s' := Step(s, Commit(id));
    if v != |s.rows| {
      assert v < |s.rows|;
      assert v !in s'.rows && |s.rows| in s'.rows;
      assert !GapFree(s'.rows);
      assert MovesAppends(s', []) && Run(s', []) == s';
    } else if Overlaps(s, v) {
      OverlapLeavesHole(s, id);
    } else {
      assert !RacingRemoval(s, Commit(id));
      StepKeeps(s, Commit(id));
      forall actions | MovesAppends(s', actions) ensures GapFree(Run(s', actions).rows) {
        AppendMovesKeep(s', actions);
      }
    }
  }

  lemma OverlapLeavesHole(s: System, id: nat)
    requires Inv(s) && Deletes(s, id) && s.calls[id].version == |s.rows|
    requires Overlaps(s, |s.rows|)
    ensures CanLeaveHole(Step(s, Commit(id)))
  {
    var v := |s.rows|;
    var s' := Step(s, Commit(id));
    assert v in s.rows && v !in s'.rows && v + 1 !in s'.rows;
    var other :| other in s.calls && (s.calls[other] == Planned(v + 1, v) || s.calls[other] == Holding(v + 1));
    assert s'.calls[other] == s.calls[other];
    if s'.calls[other].Holding? {
      SkipByCommit(s', other, v);
    } else if Held(s', v + 1) {
      var holder :| holder in s'.calls && s'.calls[holder] == Holding(v + 1);
      SkipByCommit(s', holder, v);
    } else {
      SkipByInsert(s', other, v);
    }
  }

  lemma SkipByCommit(s: System, id: nat, v: int)
    requires v >= 1 && v !in s.rows && v + 1 !in s.rows && id in s.calls && s.calls[id] == Holding(v + 1)
    ensures CanLeaveHole(s)
  {
    var actions := [Commit(id)];
    OneStep(s, Commit(id));
    SkippedRowIsAGap(s.rows, v, id);
    assert MovesAppends(s, actions) && !GapFree(Run(s, actions).rows);
  }

  lemma SkipByInsert(s: System, id: nat, v: int)
    requires v >= 1 && v !in s.rows && v + 1 !in s.rows && !Held(s, v + 1)
    requires id in s.calls && s.calls[id] == Planned(v + 1, v)
    ensures CanLeaveHole(s)
  {
    var actions := [Insert(id), Commit(id)];
    PlannedAppendGoesThrough(s, id);
    SkippedRowIsAGap(s.rows, v, id);
    assert MovesAppends(s, actions) && !GapFree(Run(s, actions).rows);
  }

  lemma OneStep(s: System, a: Action)
    ensures Run(s, [a]) == Step(s, a)
  {
  }

  lemma PlannedAppendGoesThrough(s: System, id: nat)
    requires id in s.calls && s.calls[id].Planned?
    requires s.calls[id].seen == s.calls[id].version - 1
    requires s.calls[id].version !in s.rows && !Held(s, s.calls[id].version)
    ensures Run(s, [Insert(id), Commit(id)]).rows == s.rows[s.calls[id].version := id]
  {
    assert [Insert(id), Commit(id)][..1] == [Insert(id)];
    OneStep(s, Insert(id));
  }

  lemma SkippedRowIsAGap(rows: map<int, nat>, v: int, id: nat)
    requires v >= 1 && v !in rows && v + 1 !in rows
    ensures !GapFree(rows[v + 1 := id])
  {
    assert v + 1 in rows[v + 1 := id] && v !in rows[v + 1 := id];
  }

  lemma {:induction false} Extended(s: System, actions: seq<Action>, a: Action)
    ensures Run(s, actions + [a]) == Step(Run(s, actions), a)
  {
  }

  /** A call that starts and takes its snapshot with the log to itself. */
  lemma {:induction false} PlannedAlone(before: seq<Action>, id: nat, v: int) returns (after: seq<Action>)
    requires GapFree(Run(Init, before).rows) && id !in Run(Init, before).calls
    ensures var s := Run(Init, before); Run(Init, after) == System(s.rows, s.calls[id := Planned(v, |s.rows|)])
  {
    var s := Run(Init, before);
    HeadOfGapFree(s.rows);
    after := before + [Start(id, v)] + [Snapshot(id)];
    Extended(Init, before, Start(id, v));
    Extended(Init, before + [Start(id, v)], Snapshot(id));
    assert Run(Init, after).calls == s.calls[id := Planned(v, |s.rows|)];
  }

  /** A call with the log to itself: it starts, takes its snapshot, inserts and stops before its commit. */
  lemma {:induction false} AppendAlone(s: System, before: seq<Action>, id: nat) returns (after: seq<Action>)
    requires Run(Init, before) == s && GapFree(s.rows) && id !in s.calls
    requires !Held(s, |s.rows| + 1)
    ensures Run(Init, after) == System(s.rows, s.calls[id := Holding(|s.rows| + 1)])
  {
    var v := |s.rows| + 1;
    after := PlannedAlone(before, id, v);
    Extended(Init, after, Insert(id));
    after := after + [Insert(id)];
    assert Run(Init, after).calls == s.calls[id := Holding(v)];
  }

  lemma {:induction false} RemoveAlone(s: System, before: seq<Action>, id: nat) returns (after: seq<Action>)
    requires Run(Init, before) == s && GapFree(s.rows) && |s.rows| > 0 && id !in s.calls
    ensures Run(Init, after).rows == s.rows - {|s.rows|}
    ensures Run(Init, after).calls == s.calls[id := Removed(|s.rows|)]
  {
    HeadOfGapFree(s.rows);
    var v := |s.rows|;
    after := before + [StartRemove(id, v)] + [Snapshot(id)] + [Commit(id)];
    Extended(Init, before, StartRemove(id, v));
    Extended(Init, before + [StartRemove(id, v)], Snapshot(id));
    Extended(Init, before + [StartRemove(id, v)] + [Snapshot(id)], Commit(id));
  }

  /**
   * How an append ends if nobody interferes with a log without gap: it wins its version exactly if that follows
   * the head, and is told the head and its attempt otherwise.
   */
  lemma {:induction false} AloneAppendEnds(before: seq<Action>, id: nat, v: int) returns (after: seq<Action>)
    requires GapFree(Run(Init, before).rows) && id !in Run(Init, before).calls && !Held(Run(Init, before), v)
    ensures var s, s' := Run(Init, before), Run(Init, after);
      if v == |s.rows| + 1 then s' == System(s.rows[v := id], s.calls[id := Won(v)])
      else s' == System(s.rows, s.calls[id := Conflict(v, |s.rows|, |s.rows|)])
  {
    var s := Run(Init, before);
    if v == |s.rows| + 1 {
      after := AppendAlone(s, before, id);
      Extended(Init, after, Commit(id));
      after := after + [Commit(id)];
    } else {
      HeadOfGapFree(s.rows);
      after := PlannedAlone(before, id, v);
      Extended(Init, after, Insert(id));
      after := after + [Insert(id)];
      assert Run(Init, after) == System(s.rows, s.calls[id := Lost(v, |s.rows|)]);
      Extended(Init, after, ReadHead(id));
      after := after + [ReadHead(id)];
    }
  }

  /** An insert rolled back frees its version for the calls that wait for it, and leaves the rows as they were. */
  lemma RollbackFreesVersion(s: System, id: nat, other: nat)
    requires Inv(s) && id in s.calls && s.calls[id].Holding? && other in s.calls
    requires s.calls[other] == Planned(s.calls[id].version, s.calls[id].version - 1)
    ensures Step(s, Insert(other)) == s
    ensures var s' := Step(s, Rollback(id));
      && s'.rows == s.rows && s'.calls == s.calls[id := RolledBack(s.calls[id].version)]
      && Step(s', Insert(other)).calls[other] == Holding(s.calls[id].version)
  {
    assert SoundCall(s, id, s.calls[id]);
    assert s.calls[id] == Holding(s.calls[id].version);
    var s' := Step(s, Rollback(id));
    forall o | o in s'.calls ensures s'.calls[o] != Holding(s.calls[id].version) {
      assert o != id ==> s'.calls[o] == s.calls[o];
    }
  }

  /** A removal left alone deletes its row exactly if that is the head. */
  lemma {:induction false} AloneRemovalEnds(before: seq<Action>, id: nat, v: int) returns (after: seq<Action>)
    requires GapFree(Run(Init, before).rows) && id !in Run(Init, before).calls
    ensures var s, s' := Run(Init, before), Run(Init, after);
      && s'.calls == s.calls[id := Removed(v)]
      && s'.rows == if v == |s.rows| && v in s.rows then s.rows - {v} else s.rows
  {
    var s := Run(Init, before);
    HeadOfGapFree(s.rows);
    Extended(Init, before, StartRemove(id, v));
    after := before + [StartRemove(id, v)];
    assert Run(Init, after) == System(s.rows, s.calls[id := Removing(v)]);
    Extended(Init, after, Snapshot(id));
    after := after + [Snapshot(id)];
    Extended(Init, after, Commit(id));
    after := after + [Commit(id)];
    assert Run(Init, after).calls == s.calls[id := Removed(v)];
  }

  lemma FirstVersion() returns (actions: seq<Action>)
    ensures Run(Init, actions) == System(map[1 := 0], map[0 := Won(1)])
  {
    assert Run(Init, []) == Init;
    actions := AloneAppendEnds([], 0, 1);
  }

  /** The documented race from an empty log: version 2 is appended while version 1 is removed, and only 2 is left. */
  lemma DocumentedRace() returns (actions: seq<Action>)
    ensures Run(Init, actions).rows == map[2 := 1]
    ensures !GapFree(Run(Init, actions).rows)
  {
    actions := FirstVersion();
    actions := AppendAlone(Run(Init, actions), actions, 1);
    assert Run(Init, actions).rows == map[1 := 0];
    actions := RemoveAlone(Run(Init, actions), actions, 2);
    assert Run(Init, actions).rows == map[] && Run(Init, actions).calls[1] == Holding(2);
    Extended(Init, actions, Commit(1));
    actions := actions + [Commit(1)];
    SkippedRowIsAGap(map[], 1, 1);
  }
}

/** The unit of work around such statements: one connection, taken from the pool and always given back or destroyed. */
module PgUnitsOfWork {

  /** A statement goes through, has no effect, or goes through while its caller sees an error. */
  datatype Fate = Done | Refused | ReplyLost

  /** What the callback makes of the rows it sees, whether it throws, and whether a statement failed whose error it caught. */
  datatype Work<!T> = Work(rows: T -> T, throws: bool, aborted: bool)

  class PgDatabase<T> {
    var committed: T

    constructor (rows: T)
      ensures committed == rows
    {
      committed := rows;
    }
  }

  /**
   * A normal return committed the work, unless a failed statement had aborted the transaction: its COMMIT
   * answers as usual and rolls back. An error left the rows as they were, unless it was the reply of the
   * commit that was lost. A connection goes back to the pool with a transaction still open exactly when the
   * reply of its BEGIN was lost; a failed ROLLBACK destroys the connection instead.
   */
  method WithTransaction<T>(db: PgDatabase<T>, work: Work<T>, begin: Fate, commit: Fate, rollback: Fate)
      returns (returned: bool, pooled: bool, open: bool)
    modifies db
    ensures returned <==> begin == Done && !work.throws && commit == Done
    ensures db.committed == if begin == Done && !work.throws && !work.aborted && commit != Refused then work.rows(old(db.committed))
                            else old(db.committed)
    ensures pooled && open <==> begin == ReplyLost
    ensures !pooled <==> begin == Done && !returned && rollback != Done
  {
    var poisoned := false;
    returned, open := false, begin != Refused;
    if begin == Done {
      var rows := work.rows(db.committed);
      if !work.throws {
        if commit != Refused {
          if !work.aborted { db.committed := rows; }
          open := false;
        }
        returned := commit == Done;
      }
      if !returned {
        if rollback != Refused { open := false; }
        if rollback != Done { poisoned := true; }
      }
    }
    pooled := !poisoned;
  }
}
