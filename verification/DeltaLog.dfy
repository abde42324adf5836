/**
 * The delta log of a durable object: conditional append, conditional remove, ordered reads and
 * recorded snapshots, each call serialised by the object.
 *
 * The rows are a table keyed by version. What the log means to its callers is the sequence of its
 * deltas, the one of version k at place k - 1; that such a sequence exists at all is the promise
 * that versions are exactly 1 up to the head.
 */
module DeltaLogs {
  import opened Wrappers

  datatype Delta<Op> = Delta(version: int, timestamp: int, description: string, operations: seq<Op>)
  datatype SnapshotRow = SnapshotRow(hash: string, timestamp: int)
  datatype SnapshotRef = SnapshotRef(version: int, hash: string)

  /** Thrown by `append` when the version is not the one after the head. */
  datatype Appended = Done | VersionConflict(head: int, attempted: int)

  function AppendTo<Op>(log: seq<Delta<Op>>, d: Delta<Op>): (seq<Delta<Op>>, Appended) {
    if d.version == |log| + 1 then (log + [d], Done) else (log, VersionConflict(|log|, d.version))
  }

  function RemoveFrom<Op>(log: seq<Delta<Op>>, v: int): seq<Delta<Op>> {
    if v == |log| && log != [] then log[..|log| - 1] else log
  }

  /** Where version `v` would sit, cut to the log's bounds. */
  function Cut<Op>(log: seq<Delta<Op>>, v: int): (c: nat)
    ensures c <= |log|
  {
    if v < 0 then 0 else if v > |log| then |log| else v
  }

  function Between<Op>(log: seq<Delta<Op>>, first: Option<int>, last: Option<int>): seq<Delta<Op>> {
    var lo := if first.Some? then Cut(log, first.value - 1) else 0;
    var hi := if last.Some? then Cut(log, last.value) else |log|;
    if lo <= hi then log[lo..hi] else []
  }

  /** Among the versions `among`, `ref` is the snapshot of greatest version not above the bound, if there is one. */
  ghost predicate NearestAmong(snapshots: map<int, SnapshotRow>, among: set<int>, bound: Option<int>, ref: Option<SnapshotRef>) {
    match ref
    case None => forall v :: v in among ==> bound.Some? && bound.value < v
    case Some(r) =>
      && r.version in among && r.version in snapshots && snapshots[r.version].hash == r.hash
      && (bound.Some? ==> r.version <= bound.value)
      && forall v :: v in among && (bound.Some? ==> v <= bound.value) ==> v <= r.version
  }

  ghost predicate NearestSnapshot(snapshots: map<int, SnapshotRow>, bound: Option<int>, ref: Option<SnapshotRef>) {
    NearestAmong(snapshots, snapshots.Keys, bound, ref)
  }

  /** Versions are exactly 1 up to the head, each row under its own version. */
  ghost predicate Dense<Op>(rows: map<int, Delta<Op>>) {
    && (forall v :: v in rows <==> 1 <= v <= |rows|)
    && (forall v :: v in rows ==> rows[v].version == v)
  }

  ghost function Listed<Op>(rows: map<int, Delta<Op>>): seq<Delta<Op>>
    requires Dense(rows)
  {
    seq(|rows|, i requires 0 <= i < |rows| => rows[i + 1])
  }

  /** The rows of a dense log whose place satisfies the bounds. */
  method Select<Op>(log: seq<Delta<Op>>, first: Option<int>, last: Option<int>) returns (rows: seq<Delta<Op>>)
    ensures rows == Between(log, first, last)
  {
    rows := [];
    for n := 0 to |log|
      invariant rows == Between(log[..n], first, last)
    {
      BetweenExtends(log, n, first, last);
      if (first.Some? ==> first.value <= n + 1) && (last.Some? ==> n + 1 <= last.value) {
        rows := rows + [log[n]];
      }
    }
    assert log[..|log|] == log;
  }

  class DoDeltaLog<Op> {
    var deltas: map<int, Delta<Op>>
    var snapshots: map<int, SnapshotRow>

    ghost predicate Valid()
      reads this
    {
      Dense(deltas)
    }

    ghost function Contents(): (log: seq<Delta<Op>>)
      requires Valid()
      reads this
      ensures |log| == |deltas|
    {
      Listed(deltas)
    }

    constructor ()
      ensures Valid() && Contents() == [] && snapshots == map[]
    {
      deltas, snapshots := map[], map[];
    }

    /** `SELECT MAX(version)`, or 0 for an empty table. */
    method Head() returns (head: int)
      requires Valid()
      ensures head == |Contents()|
    {
      head := 0;
      var rest := deltas.Keys;
      while rest != {}
        invariant rest <= deltas.Keys
        invariant 0 <= head <= |deltas|
        invariant forall v :: v in deltas && v !in rest ==> v <= head
        decreases rest
      {
        var v := Pick(rest);
        if head < v { head := v; }
        rest := rest - {v};
      }
      assert |deltas| > 0 ==> |deltas| in deltas;
    }

    method Append(d: Delta<Op>) returns (r: Appended)
      requires Valid()
      modifies this`deltas
      ensures Valid()
      ensures (Contents(), r) == AppendTo(old(Contents()), d)
    {
      var head := Head();
      if head != d.version - 1 { return VersionConflict(head, d.version); }
      assert d.version !in deltas;
      deltas := deltas[d.version := d];
      assert deltas.Keys == old(deltas.Keys) + {d.version};
      assert |deltas.Keys| == |old(deltas.Keys)| + 1;
      assert Dense(deltas);
      ghost var longer := old(Contents()) + [d];
      assert forall i :: 0 <= i < |longer| ==> Contents()[i] == longer[i];
      assert Contents() == longer;
      return Done;
    }

    method Remove(v: int)
      requires Valid()
      modifies this`deltas
      ensures Valid()
      ensures Contents() == RemoveFrom(old(Contents()), v)
    {
      var head := Head();
      if v in deltas && v == head {
        ghost var n := |deltas|;
        deltas := map w | w in deltas && w != v :: deltas[w];
        assert deltas.Keys == old(deltas.Keys) - {v};
        assert |deltas.Keys| == n - 1;
      }
    }

    /** The rows in order of their version. */
    method Rows() returns (log: seq<Delta<Op>>)
      requires Valid()
      ensures log == Contents()
    {
      var head := Head();
      log := [];
      for v := 1 to head + 1
        invariant |log| == v - 1 && forall i :: 0 <= i < v - 1 ==> log[i] == deltas[i + 1]
      {
        log := log + [deltas[v]];
      }
    }

    /** Rows of versions from `first` to `last`, ascending; a missing bound does not restrict. */
    method Range(first: Option<int>, last: Option<int>) returns (rows: seq<Delta<Op>>)
      requires Valid()
      ensures rows == Between(Contents(), first, last)
    {
      var log := Rows();
      rows := Select(log, first, last);
    }

    method Since(v: int) returns (rows: seq<Delta<Op>>)
      requires Valid()
      ensures rows == Contents()[Cut(Contents(), v)..]
    {
      rows := Range(Some(v + 1), None);
    }

    method CountSince(v: int) returns (n: nat)
      requires Valid()
      ensures n == |Contents()| - Cut(Contents(), v)
    {
      var rows := Since(v);
      n := |rows|;
    }

    method RecordSnapshot(v: int, hash: string, timestamp: int)
      requires Valid()
      modifies this`snapshots
      ensures Valid() && Contents() == old(Contents())
      ensures snapshots == old(snapshots)[v := SnapshotRow(hash, timestamp)]
    {
      snapshots := snapshots[v := SnapshotRow(hash, timestamp)];
    }

    method LatestSnapshotRef(atOrBefore: Option<int>) returns (ref: Option<SnapshotRef>)
      ensures NearestSnapshot(snapshots, atOrBefore, ref)
    {
      ref := None;
      var rest := snapshots.Keys;
      while rest != {}
        invariant rest <= snapshots.Keys
        invariant NearestAmong(snapshots, snapshots.Keys - rest, atOrBefore, ref)
        decreases rest
      {
        var v := Pick(rest);
        if (atOrBefore.Some? ==> v <= atOrBefore.value) && (ref.Some? ==> ref.value.version < v) {
          ref := Some(SnapshotRef(v, snapshots[v].hash));
        }
        forall w ensures w in snapshots.Keys - (rest - {v}) <==> w == v || w in snapshots.Keys - rest {}
        rest := rest - {v};
      }
      assert snapshots.Keys - rest == snapshots.Keys;
    }
  }

  lemma {:induction false} BetweenExtends<Op>(log: seq<Delta<Op>>, n: nat, first: Option<int>, last: Option<int>)
    requires n < |log|
    ensures Between(log[..n + 1], first, last)
            == Between(log[..n], first, last)
               + if (first.Some? ==> first.value <= n + 1) && (last.Some? ==> n + 1 <= last.value) then [log[n]] else []
  {
    var shorter, longer := log[..n], log[..n + 1];
    var lo := if first.Some? then Cut(longer, first.value - 1) else 0;
    var hi := if last.Some? then Cut(longer, last.value) else n + 1;
    assert longer == shorter + [log[n]];
    if lo <= n && hi == n + 1 {
      assert longer[lo..n + 1] == shorter[lo..n] + [log[n]];
    } else if lo <= hi <= n {
      assert longer[lo..hi] == shorter[lo..hi];
    }
  }

  predicate Within(v: int, first: Option<int>, last: Option<int>) {
    (first.Some? ==> first.value <= v) && (last.Some? ==> v <= last.value)
  }

  /** A range of an exact log is its deltas within the bounds, each once, by rising version without gap. */
  lemma RangesSelect<Op>(log: seq<Delta<Op>>, first: Option<int>, last: Option<int>, d: Delta<Op>)
    requires forall k :: 0 <= k < |log| ==> log[k].version == k + 1
    ensures d in Between(log, first, last) <==> d in log && Within(d.version, first, last)
    ensures var rows := Between(log, first, last); forall k :: 0 <= k < |rows| - 1 ==> rows[k + 1].version == rows[k].version + 1
  {
    if d in log && Within(d.version, first, last) {
      var lo := if first.Some? then Cut(log, first.value - 1) else 0;
      assert log[d.version - 1] == d && Between(log, first, last)[d.version - 1 - lo] == d;
    }
  }

  /** The deltas after a version of an exact log, and so how many they are. */
  lemma LaterSelect<Op>(log: seq<Delta<Op>>, v: int, d: Delta<Op>)
    requires forall k :: 0 <= k < |log| ==> log[k].version == k + 1
    ensures d in log[Cut(log, v)..] <==> d in log && v < d.version
    ensures log[Cut(log, v)..] == Between(log, Some(v + 1), None)
  {
    RangesSelect(log, Some(v + 1), None, d);
  }

  // ---------------------------------------------------------------- runs of the serial log

  datatype Call<Op> = Append(delta: Delta<Op>) | Remove(version: int)

  function Run<Op>(calls: seq<Call<Op>>): seq<Delta<Op>> {
    if calls == [] then []
    else
      var log := Run(calls[..|calls| - 1]);
      match calls[|calls| - 1]
      case Append(d) => AppendTo(log, d).0
      case Remove(v) => RemoveFrom(log, v)
  }

  /** After any calls the log holds version k at place k - 1: no gap, no repetition. */
  lemma {:induction false} VersionsAreExact<Op>(calls: seq<Call<Op>>)
    ensures forall k :: 0 <= k < |Run(calls)| ==> Run(calls)[k].version == k + 1
  {
    if calls != [] {
      VersionsAreExact(calls[..|calls| - 1]);
    }
  }

  ghost predicate IsHead<Op>(log: seq<Delta<Op>>, head: int) {
    if log == [] then head == 0 else (exists d :: d in log && d.version == head) && forall d :: d in log ==> d.version <= head
  }

  /** After any calls a delta is appended exactly if its version follows the greatest one, and is told that one otherwise. */
  lemma {:induction false} AppendsFollowTheHead<Op>(calls: seq<Call<Op>>, d: Delta<Op>, head: int)
    requires IsHead(Run(calls), head)
    ensures AppendTo(Run(calls), d) == if d.version == head + 1 then (Run(calls) + [d], Done) else (Run(calls), VersionConflict(head, d.version))
  {
    VersionsAreExact(calls);
    var log := Run(calls);
    if log != [] {
      assert log[|log| - 1] in log && log[|log| - 1].version == |log|;
    }
  }

  /** Compensation can only take back the newest delta; a log that moved on is left alone. */
  lemma {:induction false} RemoveUndoesOnlyTheLastAppend<Op>(log: seq<Delta<Op>>, d: Delta<Op>, v: int)
    requires AppendTo(log, d).1.Done?
    ensures RemoveFrom(AppendTo(log, d).0, d.version) == log
    ensures v != d.version ==> RemoveFrom(AppendTo(log, d).0, v) == AppendTo(log, d).0
  {
  }
}
