/**
 * The reference-count changes that move the retained roots of a session to the next version, and the
 * settlement that carries them to the content store.
 */
module RootTransitions {
  import opened Wrappers

  datatype RetainedRoots = RetainedRoots(delta: Option<string>, snapshot: Option<string>)
  datatype NextRoots = NextRoots(delta: string, snapshot: Option<string>)

  /** How many references a session holds to one hash: one as its current delta, one as its current snapshot. */
  function Count(r: RetainedRoots, hash: string): int {
    (if r.delta == Some(hash) then 1 else 0) + (if r.snapshot == Some(hash) then 1 else 0)
  }

  function Retained(r: RetainedRoots): set<string> {
    (if r.delta.Some? then {r.delta.value} else {}) + (if r.snapshot.Some? then {r.snapshot.value} else {})
  }

  /** A version without a snapshot keeps the snapshot before it. */
  function After(previous: RetainedRoots, next: NextRoots): RetainedRoots {
    RetainedRoots(Some(next.delta), if next.snapshot.Some? then next.snapshot else previous.snapshot)
  }

  function Change(changes: map<string, int>, hash: string): int {
    if hash in changes then changes[hash] else 0
  }

  /** Every hash whose count changes, with its change. */
  function Transition(previous: RetainedRoots, next: NextRoots): map<string, int> {
    var after := After(previous, next);
    map h | h in Retained(previous) + Retained(after) && Count(after, h) != Count(previous, h) ::
      Count(after, h) - Count(previous, h)
  }

  function Add(changes: map<string, int>, hash: string, delta: int): map<string, int> {
    changes[hash := Change(changes, hash) + delta]
  }

  method DropZeros(tally: map<string, int>) returns (changes: map<string, int>)
    ensures forall h :: h in changes <==> h in tally && tally[h] != 0
    ensures forall h :: h in changes ==> changes[h] == tally[h]
  {
    changes := tally;
    var entries := tally.Keys;
    while entries != {}
      invariant entries <= tally.Keys
      invariant forall h :: h in changes <==> h in tally && (h in entries || tally[h] != 0)
      invariant forall h :: h in changes ==> changes[h] == tally[h]
      decreases entries
    {
      var hash := Pick(entries);
      if changes[hash] == 0 { changes := changes - {hash}; }
      entries := entries - {hash};
    }
  }

  method RootTransitionChanges(previous: RetainedRoots, next: NextRoots) returns (changes: map<string, int>)
    ensures changes == Transition(previous, next)
  {
    changes := Add(map[], next.delta, 1);
    if previous.delta.Some? { changes := Add(changes, previous.delta.value, -1); }
    if next.snapshot.Some? {
      changes := Add(changes, next.snapshot.value, 1);
      if previous.snapshot.Some? { changes := Add(changes, previous.snapshot.value, -1); }
    }
    ghost var after := After(previous, next);
    forall h ensures Change(changes, h) == Count(after, h) - Count(previous, h) {}
    ghost var tally := changes;
    changes := DropZeros(changes);
    NonZeroPart(previous, next, tally, changes);
  }

  lemma NonZeroPart(previous: RetainedRoots, next: NextRoots, tally: map<string, int>, changes: map<string, int>)
    requires forall h :: Change(tally, h) == Count(After(previous, next), h) - Count(previous, h)
    requires forall h :: h in changes <==> h in tally && tally[h] != 0
    requires forall h :: h in changes ==> changes[h] == tally[h]
    ensures changes == Transition(previous, next)
  {
    forall h ensures h in changes <==> h in Transition(previous, next) {
      assert Change(tally, h) == Count(After(previous, next), h) - Count(previous, h);
    }
  }

  /** The map says exactly what every hash gains and loses, and has no entry for a hash that keeps its count. */
  lemma TransitionBalances(previous: RetainedRoots, next: NextRoots, hash: string)
    ensures Count(previous, hash) + Change(Transition(previous, next), hash) == Count(After(previous, next), hash)
    ensures hash in Transition(previous, next) <==> Count(previous, hash) != Count(After(previous, next), hash)
  {
  }

  /** The store call is skipped exactly when nothing changes. */
  lemma EmptyIffUnchanged(previous: RetainedRoots, next: NextRoots)
    ensures Transition(previous, next) == map[] <==> forall h :: Count(previous, h) == Count(After(previous, next), h)
  {
    if Transition(previous, next) == map[] {
      forall h ensures Count(previous, h) == Count(After(previous, next), h) {
        TransitionBalances(previous, next, h);
      }
    } else {
      var h :| h in Transition(previous, next);
    }
  }

  // ---------------------------------------------------------------- runs of settlements

  const Nothing := RetainedRoots(None, None)

  function Settled(versions: seq<NextRoots>): RetainedRoots {
    if versions == [] then Nothing else After(Settled(versions[..|versions| - 1]), versions[|versions| - 1])
  }

  /** The sum of what all settlements asked the store to change for one hash. */
  function Total(versions: seq<NextRoots>, hash: string): int {
    if versions == [] then 0
    else
      var earlier := versions[..|versions| - 1];
      Total(earlier, hash) + Change(Transition(Settled(earlier), versions[|versions| - 1]), hash)
  }

  ghost predicate LatestSnapshot(versions: seq<NextRoots>, snapshot: Option<string>) {
    match snapshot
    case None => forall k :: 0 <= k < |versions| ==> versions[k].snapshot.None?
    case Some(s) => exists k :: 0 <= k < |versions| && versions[k].snapshot == snapshot
                                && forall j :: k < j < |versions| ==> versions[j].snapshot.None?
  }

  /** All changes sum to one reference for the newest delta plus one for the newest snapshot, two if they coincide. */
  lemma {:induction false} ChangesTelescope(versions: seq<NextRoots>, hash: string)
    ensures Total(versions, hash) == Count(Settled(versions), hash)
    ensures versions != [] ==> Settled(versions).delta == Some(versions[|versions| - 1].delta)
    ensures LatestSnapshot(versions, Settled(versions).snapshot)
  {
    if versions != [] {
      var earlier, last := versions[..|versions| - 1], versions[|versions| - 1];
      ChangesTelescope(earlier, hash);
      TransitionBalances(Settled(earlier), last, hash);
      if last.snapshot.None? && Settled(earlier).snapshot.Some? {
        var k :| 0 <= k < |earlier| && earlier[k].snapshot == Settled(earlier).snapshot
                 && forall j :: k < j < |earlier| ==> earlier[j].snapshot.None?;
        assert versions[k].snapshot == Settled(earlier).snapshot;
        assert forall j :: k < j < |versions| ==> versions[j].snapshot.None?;
      } else if last.snapshot.Some? {
        assert versions[|versions| - 1].snapshot == Settled(versions).snapshot;
      }
    }
  }
}
