/**
 * Settling a pending version: the row is persisted, the reference changes go to the content store
 * under a request id, the row is finalised. Exporting the current version retains a snapshot for it
 * outside the settlements. Any step may be lost and started again.
 *
 * Requests to one editor are serialised; the counts are the share this session has in the store.
 */
module EditorSettlements {
  import opened Wrappers
  import opened RootTransitions

  datatype RequestId = VersionRoots(version: nat) | CommitRoots(opId: string) | EnsuredRoot(version: nat)

  datatype PendingVersion = PendingVersion(version: nat, next: NextRoots, intent: Option<string>)

  /**
   * Finalised versions in order and the roots their rows hold; whether the newest version has a snapshot row;
   * the pending row, whether this run of its settlement saw the store succeed, and the settled operations; an
   * exported snapshot that is retained and has no row yet. `lost` lists references that no row holds any more.
   */
  datatype Editor = Editor(
    versions: seq<NextRoots>, retained: RetainedRoots, snapshotted: bool,
    pending: Option<PendingVersion>, acknowledged: bool, settled: set<string>,
    ensuring: Option<string>, lost: seq<string>)

  datatype Store = Store(counts: map<string, int>, applied: map<RequestId, map<string, int>>)

  datatype Updated = Applied | Idempotent | IdempotencyConflict | NegativeAggregate | EmptyChanges

  datatype System = System(editor: Editor, store: Store)

  const Init := System(Editor([], Nothing, false, None, false, {}, None, []), Store(map[], map[]))

  predicate GoesNegative(counts: map<string, int>, changes: map<string, int>) {
    exists h :: h in changes && Change(counts, h) + changes[h] < 0
  }

  function Summed(counts: map<string, int>, changes: map<string, int>): map<string, int> {
    map h | h in counts.Keys + changes.Keys :: Change(counts, h) + Change(changes, h)
  }

  /** The update of the store: idempotent by request id, refused for a reused id or a negative count. */
  function UpdateRootRefs(s: Store, id: RequestId, changes: map<string, int>): (Store, Updated) {
    if changes == map[] then (s, EmptyChanges)
    else if id in s.applied then (s, if s.applied[id] == changes then Idempotent else IdempotencyConflict)
    else if GoesNegative(s.counts, changes) then (s, NegativeAggregate)
    else (Store(Summed(s.counts, changes), s.applied[id := changes]), Applied)
  }

  function IdOf(p: PendingVersion): RequestId {
    if p.intent.Some? then CommitRoots(p.intent.value) else VersionRoots(p.version)
  }

  function Changes(e: Editor): map<string, int>
    requires e.pending.Some?
  {
    Transition(e.retained, e.pending.value.next)
  }

  datatype Action =
    | Persist(next: NextRoots, intent: Option<string>)
    | CallStore(reachable: bool, replied: bool)
    | Finalize
    | Export(snapshot: string, reachable: bool, replied: bool)
    | Crash

  function Listed(hash: Option<string>): seq<string> {
    if hash.Some? then [hash.value] else []
  }

  /** An export makes a snapshot if the newest version has none; a request that may export has first settled what was pending. */
  predicate Exports(e: Editor, snapshot: string) {
    && e.pending.None? && e.versions != [] && !e.snapshotted
    && (e.ensuring.Some? ==> snapshot == e.ensuring.value)  // one version, one document, one hash
  }

  function Step(s: System, a: Action): System {
    var e := s.editor;
    match a
    case Persist(next, intent) =>
      if e.pending.Some? || (intent.Some? && intent.value in e.settled) then s
      else s.(editor := e.(pending := Some(PendingVersion(|e.versions| + 1, next, intent)), acknowledged := false))
    case CallStore(reachable, replied) =>
      if e.pending.None? then s
      else if Changes(e) == map[] then s.(editor := e.(acknowledged := true))
      else if !reachable then s
      else
        var (store, r) := UpdateRootRefs(s.store, IdOf(e.pending.value), Changes(e));
        System(e.(acknowledged := e.acknowledged || (replied && (r.Applied? || r.Idempotent?))), store)
    case Finalize =>
      if !e.acknowledged || e.pending.None? then s
      else
        var p := e.pending.value;
        s.(editor := Editor(e.versions + [p.next], After(e.retained, p.next), p.next.snapshot.Some?, None, false,
                            e.settled + (if p.intent.Some? then {p.intent.value} else {}), None, e.lost + Listed(e.ensuring)))
    case Export(snapshot, reachable, replied) =>
      if !Exports(e, snapshot) || !reachable then s
      else
        var (store, r) := UpdateRootRefs(s.store, EnsuredRoot(|e.versions|), map[snapshot := 1]);
        if !(r.Applied? || r.Idempotent?) then s
        else if !replied then System(e.(ensuring := Some(snapshot)), store)
        else System(e.(retained := e.retained.(snapshot := Some(snapshot)), snapshotted := true, ensuring := None,
                       lost := e.lost + Listed(e.retained.snapshot)), store)
    case Crash => s.(editor := e.(acknowledged := false))
  }

  function Run(s: System, actions: seq<Action>): System {
    if actions == [] then s else Step(Run(s, actions[..|actions| - 1]), actions[|actions| - 1])
  }

  // ---------------------------------------------------------------- what every run keeps

  predicate AppliedPending(s: System) {
    s.editor.pending.Some? && IdOf(s.editor.pending.value) in s.store.applied
  }

  /** What the store has applied for a hash beyond the rows. */
  function Ahead(s: System, hash: string): int {
    (if AppliedPending(s) then Change(Changes(s.editor), hash) else 0) + (if s.editor.ensuring == Some(hash) then 1 else 0)
  }

  /** How often a hash is among the references no row holds any more. */
  function Lost(e: Editor, hash: string): int {
    multiset(e.lost)[hash]
  }

  ghost predicate Balanced(s: System, hash: string) {
    Change(s.store.counts, hash) == Count(s.editor.retained, hash) + Ahead(s, hash) + Lost(s.editor, hash)
  }

  ghost predicate Conserved(s: System) {
    forall h {:trigger Change(s.store.counts, h)} :: Balanced(s, h)
  }

  /** An applied request belongs to a finalised version or operation, to the pending row, or to an export. */
  predicate Accounted(e: Editor, id: RequestId) {
    || (e.pending.Some? && id == IdOf(e.pending.value))
    || (id.VersionRoots? && id.version <= |e.versions|)
    || (id.CommitRoots? && id.opId in e.settled)
    || (id.EnsuredRoot? && (id.version < |e.versions| || (id.version == |e.versions| && (e.snapshotted || e.ensuring.Some?))))
  }

  ghost predicate Orderly(s: System) {
    var e := s.editor;
    && (e.pending.Some? ==>
          && e.pending.value.version == |e.versions| + 1
          && (e.pending.value.intent.Some? ==> e.pending.value.intent.value !in e.settled))
    && (forall id :: id in s.store.applied ==> Accounted(e, id))
    && (AppliedPending(s) ==> s.store.applied[IdOf(e.pending.value)] == Changes(e) != map[])
    && (e.acknowledged ==> e.pending.Some? && (Changes(e) == map[] || AppliedPending(s)))
    && (e.ensuring.Some? ==>
          EnsuredRoot(|e.versions|) in s.store.applied && s.store.applied[EnsuredRoot(|e.versions|)] == map[e.ensuring.value := 1])
  }

  ghost predicate Inv(s: System) {
    Orderly(s) && Conserved(s)
  }

  /** The counts of a session are those of its rows, or already those of the pending one, and what was lost or has no row yet. */
  lemma StoreFollowsEditor(s: System, hash: string)
    requires Inv(s)
    ensures Change(s.store.counts, hash)
            == Count(if AppliedPending(s) then After(s.editor.retained, s.editor.pending.value.next) else s.editor.retained, hash)
               + (if s.editor.ensuring == Some(hash) then 1 else 0) + Lost(s.editor, hash)
  {
  }

  /** Retrying a settlement is never refused: its id still means the same changes, and no count falls below zero. */
  lemma SettlementIsNeverRefused(s: System)
    requires Inv(s) && s.editor.pending.Some? && Changes(s.editor) != map[]
    ensures UpdateRootRefs(s.store, IdOf(s.editor.pending.value), Changes(s.editor)).1
            == if AppliedPending(s) then Idempotent else Applied
  {
  }

  /** Nor is retrying an export. */
  lemma ExportIsNeverRefused(s: System, snapshot: string)
    requires Inv(s) && Exports(s.editor, snapshot)
    ensures UpdateRootRefs(s.store, EnsuredRoot(|s.editor.versions|), map[snapshot := 1]).1
            == if s.editor.ensuring.Some? then Idempotent else Applied
  {
    var id, changes := EnsuredRoot(|s.editor.versions|), map[snapshot := 1];
    assert snapshot in changes;
    if s.editor.ensuring.None? {
      assert !Accounted(s.editor, id);
      assert id !in s.store.applied;
      forall h | h in changes ensures Change(s.store.counts, h) + changes[h] >= 0 {
        assert Balanced(s, h);
      }
    }
  }

  lemma CallStoreKeeps(s: System, a: Action)
    requires Inv(s) && a.CallStore?
    ensures Inv(Step(s, a))
  {
    var s' := Step(s, a);
    if s'.store != s.store {
      SettlementIsNeverRefused(s);
    }
    forall h ensures Balanced(s', h) {
      assert Balanced(s, h);
    }
  }

  lemma FinalizeKeeps(s: System)
    requires Inv(s)
    ensures Inv(Step(s, Finalize))
  {
    var s' := Step(s, Finalize);
    if s' != s {
      forall h ensures Balanced(s', h) {
        TransitionBalances(s.editor.retained, s.editor.pending.value.next, h);
        assert Balanced(s, h);
      }
    }
  }

  lemma ExportKeeps(s: System, snapshot: string, reachable: bool, replied: bool)
    requires Inv(s)
    ensures Inv(Step(s, Export(snapshot, reachable, replied)))
  {
    var s' := Step(s, Export(snapshot, reachable, replied));
    if s' != s {
      ExportIsNeverRefused(s, snapshot);
      forall h ensures Balanced(s', h) {
        assert Balanced(s, h);
      }
    }
  }

  lemma PersistKeeps(s: System, next: NextRoots, intent: Option<string>)
    requires Inv(s)
    ensures Inv(Step(s, Persist(next, intent)))
  {
    var s' := Step(s, Persist(next, intent));
    if s' != s {
      assert !AppliedPending(s');
      forall h ensures Balanced(s', h) {
        assert Balanced(s, h);
      }
    }
  }

  lemma CrashKeeps(s: System)
    requires Inv(s)
    ensures Inv(Step(s, Crash))
  {
    forall h ensures Balanced(Step(s, Crash), h) {
      assert Balanced(s, h);
    }
  }

  lemma InitHolds()
    ensures Inv(Init)
  {
    forall h ensures Balanced(Init, h) {}
  }

  lemma {:induction false} RunKeeps(s: System, actions: seq<Action>)
    requires Inv(s)
    ensures Inv(Run(s, actions)) && s.editor.lost <= Run(s, actions).editor.lost
  {
    if actions != [] {
      var before := Run(s, actions[..|actions| - 1]);
      RunKeeps(s, actions[..|actions| - 1]);
      match actions[|actions| - 1]
      case Persist(next, intent) => PersistKeeps(before, next, intent);
      case CallStore(reachable, replied) => CallStoreKeeps(before, CallStore(reachable, replied));
      case Finalize => FinalizeKeeps(before);
      case Export(snapshot, reachable, replied) => ExportKeeps(before, snapshot, reachable, replied);
      case Crash => CrashKeeps(before);
    }
  }

  // ---------------------------------------------------------------- theorems

  /**
   * After any settlements, exports, crashes, unreachable stores and lost replies: with nothing pending or half
   * exported, the store counts what the rows hold and what was lost; and from any state two undisturbed steps
   * finalise the pending version.
   */
  lemma {:induction false} SettlementsConserveRoots(actions: seq<Action>, hash: string)
    ensures var s := Run(Init, actions);
      s.editor.pending.None? && s.editor.ensuring.None? ==>
        Change(s.store.counts, hash) == Count(s.editor.retained, hash) + Lost(s.editor, hash)
    ensures Run(Init, actions).editor.pending.Some? ==>
              var s := Step(Step(Run(Init, actions), CallStore(true, true)), Finalize);
              && s.editor.pending.None? && s.editor.versions == Run(Init, actions).editor.versions + [Run(Init, actions).editor.pending.value.next]
              && Change(s.store.counts, hash) == Count(s.editor.retained, hash) + Lost(s.editor, hash)
  {
    InitHolds();
    RunKeeps(Init, actions);
    var s := Run(Init, actions);
    StoreFollowsEditor(s, hash);
    if s.editor.pending.Some? {
      if Changes(s.editor) != map[] { SettlementIsNeverRefused(s); }
      CallStoreKeeps(s, CallStore(true, true));
      FinalizeKeeps(Step(s, CallStore(true, true)));
      StoreFollowsEditor(Step(Step(s, CallStore(true, true)), Finalize), hash);
    }
  }

  /** A new version, or an operation not settled before, is settled from any state with nothing pending by three undisturbed steps. */
  lemma {:induction false} UndisturbedSettlement(actions: seq<Action>, next: NextRoots, intent: Option<string>, hash: string)
    requires var e := Run(Init, actions).editor; e.pending.None? && (intent.Some? ==> intent.value !in e.settled)
    ensures var e := Run(Init, actions).editor;
      var s := Step(Step(Step(Run(Init, actions), Persist(next, intent)), CallStore(true, true)), Finalize);
      && s.editor.pending.None? && s.editor.versions == e.versions + [next] && s.editor.snapshotted == next.snapshot.Some?
      && s.editor.retained.delta == Some(next.delta)
      && s.editor.retained.snapshot == (if next.snapshot.Some? then next.snapshot else e.retained.snapshot)
      && (intent.Some? ==> intent.value in s.editor.settled) && e.settled <= s.editor.settled
      && Change(s.store.counts, hash) == Count(s.editor.retained, hash) + Lost(s.editor, hash)
  {
    var more := actions + [Persist(next, intent)];
    assert more[..|actions|] == actions;
    SettlementsConserveRoots(more, hash);
  }

  /** What is settled is asked of the store under the id of its operation, or of its version if it is of none. */
  lemma {:induction false} SettlementsUseTheirId(actions: seq<Action>, next: NextRoots, intent: Option<string>)
    requires var e := Run(Init, actions).editor; e.pending.None? && (intent.Some? ==> intent.value !in e.settled)
    requires Transition(Run(Init, actions).editor.retained, next) != map[]
    ensures var e := Run(Init, actions).editor;
      var s := Step(Step(Run(Init, actions), Persist(next, intent)), CallStore(true, true));
      var id := if intent == None then VersionRoots(|e.versions| + 1) else CommitRoots(intent.value);
      id in s.store.applied && s.store.applied[id] == Transition(e.retained, next)
  {
    InitHolds();
    RunKeeps(Init, actions);
    PersistKeeps(Run(Init, actions), next, intent);
    SettlementIsNeverRefused(Step(Run(Init, actions), Persist(next, intent)));
  }

  /** The store applies a request id once: again with the same changes it does nothing, with others it is refused, as is what would go below zero or is empty. */
  lemma StoreUpdates(s: Store, id: RequestId, changes: map<string, int>, hash: string)
    ensures var (s', r) := UpdateRootRefs(s, id, changes);
      && (r == EmptyChanges <==> changes == map[])
      && (changes != map[] && id in s.applied ==> r == if changes == s.applied[id] then Idempotent else IdempotencyConflict)
      && (changes != map[] && id !in s.applied ==>
            (r == NegativeAggregate <==> exists h :: h in changes && Change(s.counts, h) + Change(changes, h) < 0) && (r == NegativeAggregate || r == Applied))
      && (r == Applied ==> s'.applied == s.applied[id := changes] && Change(s'.counts, hash) == Change(s.counts, hash) + Change(changes, hash))
      && (r != Applied ==> s' == s)
  {
    if changes != map[] && id !in s.applied {
      assert GoesNegative(s.counts, changes) <==> exists h :: h in changes && Change(s.counts, h) + Change(changes, h) < 0 by {
        if h :| h in changes && Change(s.counts, h) + Change(changes, h) < 0 {
          assert Change(s.counts, h) + changes[h] < 0;
        }
        if h :| h in changes && Change(s.counts, h) + changes[h] < 0 {
          assert Change(s.counts, h) + Change(changes, h) < 0;
        }
      }
    }
  }

  /** A crash forgets that the store answered, so that the settlement is asked for again before anything is finalised. */
  lemma CrashForgets(s: System)
    ensures Step(s, Crash).store == s.store && Step(s, Crash).editor.pending == s.editor.pending && Step(s, Crash).editor.versions == s.editor.versions
    ensures Step(Step(s, Crash), Finalize) == Step(s, Crash)
  {
  }

  /** An export does nothing without a finished version that lacks a snapshot, or if the store is out of reach; unanswered, it is retained without a row. */
  lemma {:induction false} ExportOutcomes(actions: seq<Action>, snapshot: string, replied: bool)
    ensures var s := Run(Init, actions);
      && (s.editor.pending.Some? || s.editor.versions == [] || s.editor.snapshotted ==> Step(s, Export(snapshot, true, replied)) == s)
      && Step(s, Export(snapshot, false, replied)) == s
      && (Exports(s.editor, snapshot) ==>
            var s' := Step(s, Export(snapshot, true, false));
            && s'.editor == s.editor.(ensuring := Some(snapshot)) && EnsuredRoot(|s.editor.versions|) in s'.store.applied
            && Change(s'.store.counts, snapshot) == Change(s.store.counts, snapshot) + if s.editor.ensuring.Some? then 0 else 1)
  {
    InitHolds();
    RunKeeps(Init, actions);
    var s := Run(Init, actions);
    if Exports(s.editor, snapshot) {
      ExportIsNeverRefused(s, snapshot);
    }
  }

  /** What is pending or settled cannot be begun again, and nothing is settled that the store has not acknowledged. */
  lemma SettlementGuards(s: System, next: NextRoots, intent: Option<string>)
    ensures s.editor.pending.Some? || (intent.Some? && intent.value in s.editor.settled) ==> Step(s, Persist(next, intent)) == s
    ensures !s.editor.acknowledged ==> Step(s, Finalize) == s
    ensures s.editor.pending.Some? && Changes(s.editor) != map[] ==> Step(s, CallStore(false, true)) == s
  {
  }

  /** An export left alone retains its snapshot once and gives it its row. */
  lemma {:induction false} UndisturbedExport(actions: seq<Action>, snapshot: string, hash: string)
    requires Exports(Run(Init, actions).editor, snapshot)
    ensures var s := Step(Run(Init, actions), Export(snapshot, true, true));
      && s.editor.snapshotted && s.editor.retained.snapshot == Some(snapshot) && s.editor.ensuring.None?
      && s.editor.retained.delta == Run(Init, actions).editor.retained.delta && s.editor.versions == Run(Init, actions).editor.versions
      && Change(s.store.counts, hash) == Count(s.editor.retained, hash) + Lost(s.editor, hash)
  {
    InitHolds();
    RunKeeps(Init, actions);
    var s := Run(Init, actions);
    ExportIsNeverRefused(s, snapshot);
    ExportKeeps(s, snapshot, true, true);
    StoreFollowsEditor(Step(s, Export(snapshot, true, true)), hash);
  }

  ghost predicate NothingExported(actions: seq<Action>) {
    forall k :: 0 <= k < |actions| ==> !actions[k].Export?
  }

  lemma {:induction false} RowsAreSettled(actions: seq<Action>)
    requires NothingExported(actions)
    ensures var e := Run(Init, actions).editor; e.retained == Settled(e.versions) && e.lost == [] && e.ensuring == None
  {
    if actions != [] {
      RowsAreSettled(actions[..|actions| - 1]);
      assert !actions[|actions| - 1].Export?;
      var before, after := Run(Init, actions[..|actions| - 1]).editor, Run(Init, actions).editor;
      assert |after.versions| > |before.versions| ==> after.versions[..|before.versions|] == before.versions;
    }
  }

  /** Without exports nothing is lost: the store ends with exactly one reference for the newest delta and one for the newest snapshot. */
  lemma {:induction false} SettlementsAloneLoseNothing(actions: seq<Action>, hash: string)
    requires NothingExported(actions) && Run(Init, actions).editor.pending.None?
    ensures var s := Run(Init, actions);
      Change(s.store.counts, hash) == Total(s.editor.versions, hash) == Count(Settled(s.editor.versions), hash)
  {
    SettlementsConserveRoots(actions, hash);
    RowsAreSettled(actions);
    ChangesTelescope(Run(Init, actions).editor.versions, hash);
  }

  /**
   * A step loses a reference exactly when it gives an exported version its row while an earlier snapshot is
   * held, or finalises a version while an export of the one before it is retained without a row.
   */
  lemma {:induction false} WhatIsLost(actions: seq<Action>, a: Action)
    ensures var s := Run(Init, actions);
      Step(s, a).editor.lost != s.editor.lost <==>
        || (a.Export? && a.reachable && a.replied && Exports(s.editor, a.snapshot) && s.editor.retained.snapshot.Some?)
        || (a.Finalize? && s.editor.pending.Some? && s.editor.acknowledged && s.editor.ensuring.Some?)
  {
    InitHolds();
    RunKeeps(Init, actions);
    var s := Run(Init, actions);
    if a.Export? && Exports(s.editor, a.snapshot) {
      ExportIsNeverRefused(s, a.snapshot);
    }
  }

  /** What is lost is never released, whatever the session does later. */
  lemma {:induction false} LostReferencesStay(actions: seq<Action>, more: seq<Action>, hash: string)
    ensures var s, s' := Run(Init, actions), Run(Run(Init, actions), more);
      Change(s'.store.counts, hash) >= Lost(s'.editor, hash) >= Lost(s.editor, hash)
  {
    InitHolds();
    RunKeeps(Init, actions);
    var s := Run(Init, actions);
    RunKeeps(s, more);
    var s' := Run(s, more);
    StoreFollowsEditor(s', hash);
    assert s'.editor.lost == s.editor.lost + s'.editor.lost[|s.editor.lost|..];
  }
}
