/**
 * Snapshots and replay: what a version shows is rebuilt from the nearest stored document and the
 * deltas after it.
 *
 * A history carries, beside the log and the stored documents, what every version showed to its
 * readers. Most versions show the previous document with their operations applied. Creation and
 * rollback append a delta without operations whose document comes from elsewhere.
 */
module SnapshotReplay {
  import opened Wrappers
  import opened DeltaLogs

  datatype DocumentType<!Doc, !Op> = DocumentType(init: Doc, apply: (seq<Op>, Doc) -> Doc)

  datatype Cached<Doc> = Cached(version: int, doc: Doc)

  /** `docs[k]` is what version k showed; `docs[0]` is the initial document. */
  datatype History<Doc, Op> =
    History(log: seq<Delta<Op>>, docs: seq<Doc>, snapshots: map<int, Doc>, cache: Option<Cached<Doc>>)

  function Replay<Doc, Op>(t: DocumentType<Doc, Op>, deltas: seq<Delta<Op>>, doc: Doc): Doc {
    if deltas == [] then doc
    else t.apply(deltas[|deltas| - 1].operations, Replay(t, deltas[..|deltas| - 1], doc))
  }

  ghost predicate Sound<Doc, Op>(t: DocumentType<Doc, Op>, h: History<Doc, Op>) {
    && |h.docs| == |h.log| + 1 && h.docs[0] == t.init
    && (forall v :: v in h.snapshots ==> 1 <= v <= |h.log| && h.snapshots[v] == h.docs[v])
    && (h.cache.Some? ==> 1 <= h.cache.value.version <= |h.log| && h.cache.value.doc == h.docs[h.cache.value.version])
  }

  /** Version `k` shows its predecessor with its own operations applied. */
  ghost predicate Faithful<Doc, Op>(t: DocumentType<Doc, Op>, h: History<Doc, Op>, k: int) {
    1 <= k <= |h.log| && k < |h.docs| && h.docs[k] == t.apply(h.log[k - 1].operations, h.docs[k - 1])
  }

  ghost predicate FaithfulAfter<Doc, Op>(t: DocumentType<Doc, Op>, h: History<Doc, Op>, base: int, target: int) {
    forall k :: base < k <= target ==> Faithful(t, h, k)
  }

  /** The version a rebuild of `target` starts from: the nearest snapshot not after it, or the initial document. */
  ghost predicate IsBase<Doc>(snapshots: map<int, Doc>, target: int, base: nat) {
    if base in snapshots
    then base <= target && forall v :: v in snapshots && v <= target ==> v <= base
    else base == 0 && forall v :: v in snapshots ==> target < v
  }

  function Rebuilt<Doc, Op>(t: DocumentType<Doc, Op>, h: History<Doc, Op>, base: nat, target: nat): Doc
    requires base <= target <= |h.log|
  {
    Replay(t, h.log[base..target], if base in h.snapshots then h.snapshots[base] else t.init)
  }

  // ---------------------------------------------------------------- replay preserves meaning

  lemma {:induction false} ReplayCatchesUp<Doc, Op>(t: DocumentType<Doc, Op>, h: History<Doc, Op>, base: nat, target: nat)
    requires Sound(t, h) && base <= target <= |h.log| && FaithfulAfter(t, h, base, target)
    ensures Replay(t, h.log[base..target], h.docs[base]) == h.docs[target]
  {
    if base < target {
      ReplayCatchesUp(t, h, base, target - 1);
      assert h.log[base..target][..target - 1 - base] == h.log[base..target - 1];
      assert Faithful(t, h, target);
    }
  }

  /** Rebuilding from the nearest snapshot shows what the version showed. */
  lemma RebuildIsExact<Doc, Op>(t: DocumentType<Doc, Op>, h: History<Doc, Op>, base: nat, target: nat)
    requires Sound(t, h) && target <= |h.log| && IsBase(h.snapshots, target, base) && FaithfulAfter(t, h, base, target)
    ensures Rebuilt(t, h, base, target) == h.docs[target]
  {
    ReplayCatchesUp(t, h, base, target);
  }

  /** So does replaying on top of a cached pair, whichever version it carries. */
  lemma CacheIsExact<Doc, Op>(t: DocumentType<Doc, Op>, h: History<Doc, Op>)
    requires Sound(t, h) && h.cache.Some? && FaithfulAfter(t, h, h.cache.value.version, |h.log|)
    ensures Replay(t, h.log[h.cache.value.version..], h.cache.value.doc) == h.docs[|h.log|]
  {
    ReplayCatchesUp(t, h, h.cache.value.version, |h.log|);
    assert h.log[h.cache.value.version..] == h.log[h.cache.value.version..|h.log|];
  }

  // ---------------------------------------------------------------- steps of the storage ports

  datatype Step<Doc, Op> =
    | Append(delta: Delta<Op>)
    | Synthesize(delta: Delta<Op>, doc: Doc)
    | Remove(version: int)
    | Record(version: int)
    | Cache(version: int)
    | Evict

  function Next<Doc, Op>(t: DocumentType<Doc, Op>, h: History<Doc, Op>, s: Step<Doc, Op>): History<Doc, Op>
    requires |h.docs| == |h.log| + 1
  {
    match s
    case Append(d) =>
      if AppendTo(h.log, d).1.Done?
      then h.(log := AppendTo(h.log, d).0, docs := h.docs + [t.apply(d.operations, h.docs[|h.log|])])
      else h
    case Synthesize(d, doc) =>
      if AppendTo(h.log, d).1.Done? then h.(log := AppendTo(h.log, d).0, docs := h.docs + [doc]) else h
    case Remove(v) =>
      h.(log := RemoveFrom(h.log, v), docs := h.docs[..|RemoveFrom(h.log, v)| + 1])
    case Record(v) => if 1 <= v <= |h.log| then h.(snapshots := h.snapshots[v := h.docs[v]]) else h
    case Cache(v) => if 1 <= v <= |h.log| then h.(cache := Some(Cached(v, h.docs[v]))) else h
    case Evict => h.(cache := None)
  }

  function Start<Doc, Op>(t: DocumentType<Doc, Op>): History<Doc, Op> {
    History([], [t.init], map[], None)
  }

  function Run<Doc, Op>(t: DocumentType<Doc, Op>, steps: seq<Step<Doc, Op>>): (h: History<Doc, Op>)
    ensures |h.docs| == |h.log| + 1
  {
    if steps == [] then Start(t) else Next(t, Run(t, steps[..|steps| - 1]), steps[|steps| - 1])
  }

  /** What each port step leaves: of a step out of place nothing, of any other just what it names. */
  lemma StepsMean<Doc, Op>(t: DocumentType<Doc, Op>, h: History<Doc, Op>, d: Delta<Op>, doc: Doc, v: int)
    requires |h.docs| == |h.log| + 1
    ensures Next(t, h, Step.Append(d)) == Next(t, h, Synthesize(d, t.apply(d.operations, h.docs[|h.log|])))
    ensures var h' := Next(t, h, Synthesize(d, doc));
      && h'.snapshots == h.snapshots && h'.cache == h.cache
      && if d.version == |h.log| + 1 then h'.log == h.log + [d] && h'.docs == h.docs + [doc] else h' == h
    ensures var h' := Next(t, h, Step.Remove(v));
      && h'.snapshots == h.snapshots && h'.cache == h.cache
      && if v == |h.log| > 0 then h'.log == h.log[..v - 1] && h'.docs == h.docs[..v] else h' == h
    ensures 1 <= v <= |h.log| ==> Next(t, h, Record(v)) == History(h.log, h.docs, h.snapshots[v := h.docs[v]], h.cache)
    ensures 1 <= v <= |h.log| ==> Next(t, h, Cache(v)) == History(h.log, h.docs, h.snapshots, Some(Cached(v, h.docs[v])))
    ensures Next(t, h, Evict) == History(h.log, h.docs, h.snapshots, None)
  {
    assert h.docs[..|h.docs|] == h.docs;
  }

  /** The step takes away the newest version while a stored document still carries its number. */
  ghost predicate RemovesCarried<Doc, Op>(h: History<Doc, Op>, s: Step<Doc, Op>) {
    s.Remove? && s.version == |h.log|
    && (s.version in h.snapshots || (h.cache.Some? && h.cache.value.version == s.version))
  }

  lemma StepKeeps<Doc, Op>(t: DocumentType<Doc, Op>, h: History<Doc, Op>, s: Step<Doc, Op>)
    requires Sound(t, h) && !RemovesCarried(h, s)
    ensures Sound(t, Next(t, h, s))
  {
  }

  ghost predicate NoCarriedRemoval<Doc, Op>(t: DocumentType<Doc, Op>, steps: seq<Step<Doc, Op>>) {
    forall k :: 0 <= k < |steps| ==> !RemovesCarried(Run(t, steps[..k]), steps[k])
  }

  lemma {:induction false} RunKeeps<Doc, Op>(t: DocumentType<Doc, Op>, steps: seq<Step<Doc, Op>>)
    requires NoCarriedRemoval(t, steps)
    ensures Sound(t, Run(t, steps))
  {
    if steps != [] {
      var shorter := steps[..|steps| - 1];
      forall k | 0 <= k < |shorter| ensures !RemovesCarried(Run(t, shorter[..k]), shorter[k]) {
        assert shorter[..k] == steps[..k];
      }
      RunKeeps(t, shorter);
      StepKeeps(t, Run(t, shorter), steps[|steps| - 1]);
    }
  }

  ghost predicate NothingSynthetic<Doc, Op>(steps: seq<Step<Doc, Op>>) {
    forall k :: 0 <= k < |steps| ==> !steps[k].Synthesize?
  }

  lemma {:induction false} AppendsAreFaithful<Doc, Op>(t: DocumentType<Doc, Op>, steps: seq<Step<Doc, Op>>)
    requires NothingSynthetic(steps)
    ensures FaithfulAfter(t, Run(t, steps), 0, |Run(t, steps).log|)
  {
    if steps != [] {
      var shorter := steps[..|steps| - 1];
      AppendsAreFaithful(t, shorter);
      var h, h' := Run(t, shorter), Run(t, steps);
      assert !steps[|steps| - 1].Synthesize?;
      forall k | 0 < k <= |h'.log| ensures Faithful(t, h', k) {
        assert k <= |h.log| ==> Faithful(t, h, k);
      }
    }
  }

  /**
   * After any conditional appends and removals, recorded snapshots, cache writes and evictions, as long
   * as no removed version carried a stored document: rebuilding any version from its nearest snapshot,
   * or the newest from the cache, equals replaying the whole log from the initial document.
   */
  lemma {:induction false} ReplayPreservesMeaning<Doc, Op>(t: DocumentType<Doc, Op>, steps: seq<Step<Doc, Op>>, base: nat, target: nat)
    requires NoCarriedRemoval(t, steps) && NothingSynthetic(steps)
    requires var h := Run(t, steps); target <= |h.log| && IsBase(h.snapshots, target, base)
    ensures var h := Run(t, steps);
      && base <= target
      && Rebuilt(t, h, base, target) == Replay(t, h.log[..target], t.init)
      && (h.cache.Some? ==>
            && 0 <= h.cache.value.version <= |h.log|
            && Replay(t, h.log[h.cache.value.version..], h.cache.value.doc) == Replay(t, h.log, t.init))
  {
    var h := Run(t, steps);
    RunKeeps(t, steps);
    AppendsAreFaithful(t, steps);
    RebuildIsExact(t, h, base, target);
    ReplayCatchesUp(t, h, 0, target);
    assert h.log[0..target] == h.log[..target];
    if h.cache.Some? {
      CacheIsExact(t, h);
      ReplayCatchesUp(t, h, 0, |h.log|);
      assert h.log[0..|h.log|] == h.log;
    }
  }

  // ---------------------------------------------------------------- where it fails, exactly

  /** Once a snapshotted version was removed and written again, its rebuild is right iff both contents coincide. */
  lemma ReusedSnapshotVersion<Doc, Op>(t: DocumentType<Doc, Op>, h: History<Doc, Op>, d: Delta<Op>)
    requires Sound(t, h) && |h.log| in h.snapshots && d.version == |h.log|
    ensures var h' := Next(t, Next(t, h, Step.Remove(|h.log|)), Step.Append(d));
      && |h'.log| == |h.log| && IsBase(h'.snapshots, |h.log|, |h.log|)
      && (Rebuilt(t, h', |h.log|, |h.log|) == h'.docs[|h.log|]
          <==> t.apply(d.operations, h.docs[|h.log| - 1]) == h.docs[|h.log|])
  {
  }

  /** The step a rollback takes: an empty delta that shows what `target` showed. */
  function RollbackStep<Doc, Op>(h: History<Doc, Op>, target: nat, timestamp: int, description: string): Step<Doc, Op>
    requires target < |h.docs|
  {
    Synthesize(Delta(|h.log| + 1, timestamp, description, []), h.docs[target])
  }

  /**
   * A rollback, then any later deltas, rebuilt from before the rollback: the replay runs them on what the
   * version before the rollback showed, the readers saw them on what the target showed.
   */
  lemma {:induction false} RollbackIsReplayedAsNothing<Doc, Op>(
      t: DocumentType<Doc, Op>, h: History<Doc, Op>, target: nat, base: nat, step: Step<Doc, Op>, more: seq<Delta<Op>>)
    requires Sound(t, h) && 1 <= target <= |h.log| && step.Synthesize? && step.delta.version == |h.log| + 1
    requires step.delta.operations == [] && step.doc == h.docs[target]
    requires base <= |h.log| && FaithfulAfter(t, h, base, |h.log|)
    ensures Replay(t, h.log[base..] + [step.delta] + more, h.docs[base])
            == Replay(t, more, t.apply([], h.docs[|h.log|]))
  {
    if more == [] {
      ReplayCatchesUp(t, h, base, |h.log|);
      assert h.log[base..] == h.log[base..|h.log|];
      assert (h.log[base..] + [step.delta])[..|h.log| - base] == h.log[base..];
      assert h.log[base..] + [step.delta] + more == h.log[base..] + [step.delta];
    } else {
      RollbackIsReplayedAsNothing(t, h, target, base, step, more[..|more| - 1]);
      var all := h.log[base..] + [step.delta] + more;
      assert all[..|all| - 1] == h.log[base..] + [step.delta] + more[..|more| - 1];
    }
  }

  /**
   * With the cache gone and no snapshot taken since, a rolled-back document is reloaded as rolled back
   * iff applying no operations to the document before the rollback already gives the target's.
   */
  lemma RollbackSurvivesReload<Doc, Op>(
      t: DocumentType<Doc, Op>, h: History<Doc, Op>, target: nat, base: nat, timestamp: int, description: string)
    requires Sound(t, h) && 1 <= target <= |h.log|
    requires IsBase(h.snapshots, |h.log| + 1, base) && FaithfulAfter(t, h, base, |h.log|)
    ensures var h' := Next(t, h, RollbackStep(h, target, timestamp, description));
      && base <= |h'.log| == |h.log| + 1 && IsBase(h'.snapshots, |h'.log|, base)
      && (Rebuilt(t, h', base, |h'.log|) == h'.docs[|h'.log|]
          <==> t.apply([], h.docs[|h.log|]) == h.docs[target])
  {
    var step := RollbackStep(h, target, timestamp, description);
    var h' := Next(t, h, step);
    RollbackIsReplayedAsNothing(t, h, target, base, step, []);
    assert h'.log[base..|h'.log|] == h.log[base..] + [step.delta] + [];
    assert h'.docs[|h'.log|] == h.docs[target];
  }

  /** Documents that are sums of what was added to them. */
  const Sums: DocumentType<int, int> :=
    DocumentType(0, (ops: seq<int>, doc: int) => if ops == [] then doc else doc + ops[0])

  const TwoEdits: seq<Step<int, int>> := [Step.Append(Delta(1, 0, "", [5])), Step.Append(Delta(2, 0, "", [7]))]

  /** Two edits, a rollback to the first, a lost cache: the reload shows the second edit again. */
  lemma RollbackLost()
    ensures var h := Run(Sums, TwoEdits);
      && h.docs == [0, 5, 12]
      && var h' := Next(Sums, h, RollbackStep(h, 1, 0, ""));
         h'.docs[3] == 5 && IsBase(h'.snapshots, 3, 0) && Rebuilt(Sums, h', 0, 3) != 5
  {
    assert TwoEdits[..1][..0] == [];
    assert Run(Sums, []) == Start(Sums);
    assert Run(Sums, TwoEdits[..1]).docs == [0, 5];
    assert Run(Sums, TwoEdits).docs == [0, 5, 12];
    RunKeeps(Sums, TwoEdits);
    AppendsAreFaithful(Sums, TwoEdits);
    RollbackSurvivesReload(Sums, Run(Sums, TwoEdits), 1, 0, 0, "");
  }
}
