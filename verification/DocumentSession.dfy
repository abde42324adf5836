/**
 * The session over those ports: loading and rolling back rebuild documents by replay, and the
 * operations of a session with the log to itself.
 */
module DocumentSessions {
  import opened Wrappers
  import opened DeltaLogs
  import opened SnapshotReplay

  const DELTA_THRESHOLD := 20

  datatype SessionError = NotFound | StorageCorrupt

  class DocumentSession<Doc(==, !new), Op(==)> {
    const documentType: DocumentType<Doc, Op>
    const digest: Doc -> string
    const log: DoDeltaLog<Op>
    /** The content-addressed store and the droppable cache. */
    var blobs: map<string, Doc>
    var cache: Option<Cached<Doc>>
    /** The document in memory. */
    var doc: Option<Doc>
    var version: int
    var loaded: bool

    ghost predicate Valid()
      reads this, log
    {
      && log.Valid()
      && (forall d, d' :: digest(d) == digest(d') ==> d == d')
      && (forall b :: b in blobs ==> digest(blobs[b]) == b)
    }

    /** The ports hold this history; a snapshot's blob, if still stored, is its document. */
    ghost predicate Represents(h: History<Doc, Op>)
      requires Valid()
      reads this, log
    {
      && Sound(documentType, h)
      && log.Contents() == h.log && cache == h.cache && log.snapshots.Keys == h.snapshots.Keys
      && forall v :: v in h.snapshots ==> log.snapshots[v].hash == digest(h.snapshots[v])
    }

    ghost predicate Stored(base: nat)
      reads this, log
    {
      base in log.snapshots ==> log.snapshots[base].hash in blobs
    }

    constructor (documentType: DocumentType<Doc, Op>, digest: Doc -> string, log: DoDeltaLog<Op>,
                 blobs: map<string, Doc>, cache: Option<Cached<Doc>>)
      ensures this.documentType == documentType && this.digest == digest && this.log == log
      ensures this.blobs == blobs && this.cache == cache && !loaded && doc == None && version == 0
    {
      this.documentType, this.digest, this.log := documentType, digest, log;
      this.blobs, this.cache, doc, version, loaded := blobs, cache, None, 0, false;
    }

    /** Operations of the deltas, applied in order. */
    method ReplayAll(deltas: seq<Delta<Op>>, start: Doc) returns (d: Doc)
      ensures d == Replay(documentType, deltas, start)
    {
      d := start;
      for i := 0 to |deltas|
        invariant d == Replay(documentType, deltas[..i], start)
      {
        assert deltas[..i + 1][..i] == deltas[..i];
        d := documentType.apply(deltas[i].operations, d);
      }
      assert deltas[..|deltas|] == deltas;
    }

    /** The document a rebuild of `target` starts from, with its version. */
    method NearestStored(ghost h: History<Doc, Op>, bound: Option<int>, ghost target: nat)
        returns (start: Option<Doc>, ghost base: nat, baseVersion: int)
      requires Valid() && Represents(h)
      requires bound == Some(target) || (bound == None && target == |h.log|)
      ensures IsBase(h.snapshots, target, base) && baseVersion == base
      ensures start == if !Stored(base) then None else Some(if base in h.snapshots then h.snapshots[base] else documentType.init)
    {
      var ref := log.LatestSnapshotRef(bound);
      if ref.None? {
        base, baseVersion, start := 0, 0, Some(documentType.init);
      } else {
        base, baseVersion := ref.value.version, ref.value.version;
        start := if ref.value.hash in blobs then Some(blobs[ref.value.hash]) else None;
      }
    }

    /**
     * From the cache if it holds anything, else from the newest snapshot, else from nothing; then the
     * later deltas. A lost blob is reported, never replaced by the initial document.
     */
    method Load(ghost h: History<Doc, Op>) returns (r: Result<(), SessionError>, ghost base: nat)
      requires Valid() && Represents(h) && (!loaded ==> doc == None && version == 0)
      modifies this`cache, this`doc, this`version, this`loaded
      ensures Valid()
      ensures old(loaded) ==> r.Success? && doc == old(doc) && version == old(version) && loaded && cache == old(cache)
      ensures !old(loaded) && h.cache.Some? ==> r.Success? && base == h.cache.value.version
      ensures !old(loaded) && h.cache.None? ==> IsBase(h.snapshots, |h.log|, base) && (r.Success? <==> Stored(base))
      ensures !old(loaded) && r.Success? ==>
        && loaded && version == |h.log| && base <= |h.log|
        && doc == (if h.log == [] then None
                   else if h.cache.Some? then Some(Replay(documentType, h.log[base..], h.cache.value.doc))
                   else Some(Rebuilt(documentType, h, base, |h.log|)))
        && cache == if base < |h.log| then Some(Cached(|h.log|, doc.value)) else h.cache
      ensures r.Failure? ==> r.error == StorageCorrupt && !loaded && doc == None && version == 0 && cache == old(cache)
    {
      base := 0;
      if loaded { return Success(()), base; }
      assert h.log[..] == h.log[0..] && forall k :: 0 <= k <= |h.log| ==> h.log[k..] == h.log[k..|h.log|];
      if cache.Some? {
        doc, version, base := Some(cache.value.doc), cache.value.version, cache.value.version;
      } else {
        var start, baseVersion;
        start, base, baseVersion := NearestStored(h, None, |h.log|);
        if start.None? { return Failure(StorageCorrupt), base; }
        if baseVersion > 0 {
          doc, version := start, baseVersion;
        }
      }
      CatchUp(h, base);
      loaded := true;
      return Success(()), base;
    }

    /** Replay what the log holds after the version in memory, and refresh the cache if that was anything. */
    method CatchUp(ghost h: History<Doc, Op>, ghost base: nat)
      requires Valid() && Represents(h) && version == base <= |h.log| && (doc == None ==> base == 0)
      modifies this`cache, this`doc, this`version
      ensures Valid() && version == |h.log|
      ensures base == |h.log| ==> doc == old(doc) && cache == old(cache)
      ensures base < |h.log| ==>
        && doc == Some(Replay(documentType, h.log[base..],
                              if old(doc).Some? then old(doc).value else documentType.init))
        && cache == Some(Cached(|h.log|, doc.value))
    {
      var pending := log.Since(version);
      assert pending == h.log[base..];
      if |pending| > 0 {
        var start := if doc.Some? then doc.value else documentType.init;
        var d := ReplayAll(pending, start);
        doc, version := Some(d), pending[|pending| - 1].version;
        assert log.deltas[|h.log|].version == |h.log|;
        cache := Some(Cached(version, d));
      }
    }

    /** Put the document in the content-addressed store and record it for the version in memory. */
    method WriteSnapshot(ghost h: History<Doc, Op>, timestamp: int)
      requires Valid() && Represents(h) && doc == Some(h.docs[|h.log|]) && version == |h.log| > 0
      modifies this`blobs, log`snapshots
      ensures Valid() && Represents(h.(snapshots := h.snapshots[|h.log| := h.docs[|h.log|]])) && Stored(|h.log|)
    {
      var hash := digest(doc.value);
      blobs := blobs[hash := doc.value];
      log.RecordSnapshot(version, hash, timestamp);
    }

    /** What `target` showed, by replay from the nearest snapshot not after it; nothing if its blob is lost. */
    method Rebuild(ghost h: History<Doc, Op>, target: int) returns (d: Option<Doc>, ghost base: nat)
      requires Valid() && Represents(h) && 1 <= target <= |h.log|
      ensures IsBase(h.snapshots, target, base) && base <= target
      ensures d == if Stored(base) then Some(Rebuilt(documentType, h, base, target)) else None
    {
      var start, baseVersion;
      start, base, baseVersion := NearestStored(h, Some(target), target);
      if start.None? { return None, base; }
      var between := log.Range(Some(baseVersion + 1), Some(target));
      assert between == h.log[base..target];
      var rebuilt := ReplayAll(between, start.value);
      return Some(rebuilt), base;
    }

    /** Append an empty delta that shows `shown`, and hold it in memory and in the cache. */
    method AppendSynthetic(ghost h: History<Doc, Op>, shown: Doc, timestamp: int, description: string)
        returns (ghost h': History<Doc, Op>)
      requires Valid() && Represents(h)
      modifies this`doc, this`version, this`cache, log`deltas
      ensures Valid() && Represents(h')
      ensures version == |h.log| + 1 && doc == Some(shown)
      ensures h' == History(h.log + [Delta(version, timestamp, description, [])], h.docs + [shown], h.snapshots,
                            Some(Cached(version, shown)))
    {
      var head := log.Head();
      var appended := log.Append(Delta(head + 1, timestamp, description, []));
      doc, version := Some(shown), head + 1;
      cache := Some(Cached(version, shown));
      h' := History(log.Contents(), h.docs + [shown], h.snapshots, cache);
    }

    /** A snapshot once enough deltas followed the last one, so that some snapshot or the start is always near. */
    method SnapshotIfDue(ghost h: History<Doc, Op>, timestamp: int) returns (ghost h': History<Doc, Op>)
      requires Valid() && Represents(h) && doc == Some(h.docs[|h.log|]) && version == |h.log| > 0
      modifies this`blobs, log`snapshots
      ensures Valid() && Represents(h')
      ensures h' == h || h' == h.(snapshots := h.snapshots[version := doc.value])
      ensures exists latest :: IsBase(h'.snapshots, version, latest) && version - latest < DELTA_THRESHOLD
    {
      var start, latest, latestVersion := NearestStored(h, None, |h.log|);
      var since := log.CountSince(latestVersion);
      h' := h;
      if since >= DELTA_THRESHOLD {
        WriteSnapshot(h, timestamp);
        h' := h.(snapshots := h.snapshots[|h.log| := h.docs[|h.log|]]);
        assert IsBase(h'.snapshots, version, version);
      } else {
        assert IsBase(h'.snapshots, version, latest);
      }
    }

    /**
     * Rebuild the target and append an empty delta for it. The new history shows the rebuilt document at
     * the next version, holds it in the cache, and in a snapshot once enough deltas followed the last one.
     */
    method Rollback(ghost h: History<Doc, Op>, target: int, timestamp: int, description: string)
        returns (r: Result<int, SessionError>, ghost base: nat, ghost h': History<Doc, Op>)
      requires Valid() && Represents(h) && loaded
      modifies this, log
      ensures Valid() && Represents(h')
      ensures r.Success? <==> old(doc).Some? && 1 <= target <= |h.log| && old(Stored(base))
      ensures r.Failure? ==> h' == h && doc == old(doc) && version == old(version)
      ensures r.Failure? ==> (r.error.StorageCorrupt? <==> old(doc).Some? && 1 <= target <= |h.log|)
      ensures 1 <= target <= |h.log| && old(doc).Some? ==> IsBase(h.snapshots, target, base)
      ensures r.Success? ==>
        && base <= target && r.value == version == |h.log| + 1
        && doc == Some(Rebuilt(documentType, h, base, target))
        && h'.log == h.log + [Delta(version, timestamp, description, [])]
        && h'.docs == h.docs + [doc.value] && h'.cache == Some(Cached(version, doc.value))
        && (h'.snapshots == h.snapshots || h'.snapshots == h.snapshots[version := doc.value])
        && exists latest :: IsBase(h'.snapshots, version, latest) && version - latest < DELTA_THRESHOLD
    {
      base, h' := 0, h;
      if doc.None? { return Failure(NotFound), base, h'; }
      var existing := log.Range(Some(target), Some(target));
      if |existing| == 0 { return Failure(NotFound), base, h'; }
      var rebuilt;
      rebuilt, base := Rebuild(h, target);
      if rebuilt.None? { return Failure(StorageCorrupt), base, h'; }
      h' := AppendSynthetic(h, rebuilt.value, timestamp, description);
      h' := SnapshotIfDue(h', timestamp);
      return Success(version), base, h';
    }
  }
}

/**
 * Runs of a session that has the log to itself, as every durable object has, with its document in memory,
 * restarts and reloads.
 *
 * A step may stop short of what the session does next: an edit whose cache write or snapshot never came is
 * the edit alone, an edit cut off before its memory was set is followed by a restart.
 */
module SessionRuns {
  import opened Wrappers
  import opened DeltaLogs
  import opened SnapshotReplay

  /** The ports with what every version showed, and the document in memory with its version: none before a load. */
  datatype Session<Doc, Op> = Session(h: History<Doc, Op>, memory: Option<Cached<Doc>>)

  /**
   * What became of an appended edit: its root references committed; or not, and its delta taken back; or not
   * that either, so that the delta stays and the memory does not know of it.
   */
  datatype Fate = Committed | TakenBack | LeftBehind

  datatype Operation<Doc, Op> =
    | Create(doc: Doc)
    | Load
    | Apply(delta: Delta<Op>, fate: Fate)
    | Rollback(target: int)
    | TakeSnapshot
    | FillCache
    | LoseCache
    | Restart

  /** Versions of stored documents exist, and the first version of a log has its snapshot. */
  predicate Shaped<Doc, Op>(h: History<Doc, Op>) {
    && |h.docs| == |h.log| + 1
    && (forall v :: v in h.snapshots ==> 1 <= v <= |h.log|)
    && (h.cache.Some? ==> 1 <= h.cache.value.version <= |h.log|)
    && (h.log != [] ==> 1 in h.snapshots)
  }

  predicate Fits<Doc, Op>(s: Session<Doc, Op>) {
    Shaped(s.h) && (s.memory.Some? ==> 1 <= s.memory.value.version <= |s.h.log|)
  }

  /** The memory is of an older version than the newest in the log. */
  predicate Behind<Doc, Op>(s: Session<Doc, Op>) {
    s.memory.Some? && s.memory.value.version < |s.h.log|
  }

  function Nearest<Doc>(snapshots: map<int, Doc>, target: nat): (base: nat)
    ensures base <= target && (base in snapshots || base == 0)
    ensures forall v :: base < v <= target ==> v !in snapshots
  {
    if target in snapshots || target == 0 then target else Nearest(snapshots, target - 1)
  }

  /** Where a load starts from: the cached version, else the nearest snapshot. */
  function LoadBase<Doc, Op>(h: History<Doc, Op>): (base: nat)
    requires Shaped(h)
    ensures base <= |h.log|
  {
    if h.cache.Some? then h.cache.value.version else Nearest(h.snapshots, |h.log|)
  }

  function StoredAt<Doc, Op>(t: DocumentType<Doc, Op>, h: History<Doc, Op>): Doc
    requires Shaped(h)
  {
    var base := LoadBase(h);
    if h.cache.Some? then h.cache.value.doc else if base in h.snapshots then h.snapshots[base] else t.init
  }

  /** The document a load finds: what is stored, with the later deltas. */
  function LoadedDoc<Doc, Op>(t: DocumentType<Doc, Op>, h: History<Doc, Op>): Doc
    requires Shaped(h)
  {
    Replay(t, h.log[LoadBase(h)..], StoredAt(t, h))
  }

  /** A new version that shows `doc`, in memory too. */
  function Shown<Doc, Op>(h: History<Doc, Op>, d: Delta<Op>, doc: Doc): Session<Doc, Op> {
    Session(h.(log := h.log + [d], docs := h.docs + [doc]), Some(Cached(|h.log| + 1, doc)))
  }

  function Perform<Doc, Op>(t: DocumentType<Doc, Op>, s: Session<Doc, Op>, o: Operation<Doc, Op>): (s': Session<Doc, Op>)
    requires Fits(s)
    ensures Fits(s')
  {
    var h, head := s.h, |s.h.log|;
    match o
    case Create(doc) =>
      if h.log != [] then s
      else
        var created := Shown(h, Delta(1, 0, "Document created", []), doc);
        created.(h := created.h.(snapshots := h.snapshots[1 := doc]))
    case Load =>
      if s.memory.Some? || h.log == [] then s
      else
        var doc := LoadedDoc(t, h);
        Session(if LoadBase(h) < head then h.(cache := Some(Cached(head, doc))) else h, Some(Cached(head, doc)))
    case Apply(d, fate) =>
      if s.memory.None? || d.version != head + 1 then s
      else
        var edited := Shown(h, d, t.apply(d.operations, s.memory.value.doc));
        if fate.Committed? then edited
        else if fate.LeftBehind? then Session(edited.h, s.memory)
        else Session(edited.h.(log := RemoveFrom(edited.h.log, d.version), docs := edited.h.docs[..|h.docs|]), s.memory)
    case Rollback(target) =>
      if s.memory.None? || !(1 <= target <= head) then s
      else Shown(h, Delta(head + 1, 0, "Rollback", []), Rebuilt(t, h, Nearest(h.snapshots, target), target))
    case TakeSnapshot => if s.memory.None? then s else s.(h := h.(snapshots := h.snapshots[s.memory.value.version := s.memory.value.doc]))
    case FillCache => if s.memory.None? then s else s.(h := h.(cache := s.memory))
    case LoseCache => s.(h := h.(cache := None))
    case Restart => s.(memory := None)
  }

  function Run<Doc, Op>(t: DocumentType<Doc, Op>, ops: seq<Operation<Doc, Op>>): (s: Session<Doc, Op>)
    ensures Fits(s)
  {
    if ops == [] then Session(Start(t), None) else Perform(t, Run(t, ops[..|ops| - 1]), ops[|ops| - 1])
  }

  /** The version a step writes apart from the one before it: a rollback, or an edit of a memory that is behind. */
  function WrittenApart<Doc, Op>(s: Session<Doc, Op>, o: Operation<Doc, Op>): set<int> {
    if o.Rollback? || (o.Apply? && Behind(s)) then {|s.h.log| + 1} else {}
  }

  function Apart<Doc, Op>(t: DocumentType<Doc, Op>, ops: seq<Operation<Doc, Op>>): set<int> {
    if ops == [] then {}
    else
      var earlier := ops[..|ops| - 1];
      Apart(t, earlier) + WrittenApart(Run(t, earlier), ops[|ops| - 1])
  }

  /** What is stored and what is in memory is what its version showed. */
  ghost predicate Right<Doc, Op>(t: DocumentType<Doc, Op>, s: Session<Doc, Op>) {
    Sound(t, s.h) && Fits(s) && (s.memory.Some? ==> s.memory.value.doc == s.h.docs[s.memory.value.version])
  }

  /** This step loads a document other than the one its version showed. */
  ghost predicate LossyLoad<Doc, Op>(t: DocumentType<Doc, Op>, s: Session<Doc, Op>, o: Operation<Doc, Op>)
    requires Shaped(s.h)
  {
    o.Load? && s.memory.None? && s.h.log != [] && LoadedDoc(t, s.h) != s.h.docs[|s.h.log|]
  }

  ghost predicate NoLossyLoad<Doc, Op>(t: DocumentType<Doc, Op>, ops: seq<Operation<Doc, Op>>) {
    forall k :: 0 <= k < |ops| ==> !LossyLoad(t, Run(t, ops[..k]), ops[k])
  }

  ghost predicate AlwaysRight<Doc, Op>(t: DocumentType<Doc, Op>, ops: seq<Operation<Doc, Op>>) {
    forall k :: 0 <= k <= |ops| ==> Right(t, Run(t, ops[..k]))
  }

  /** A failed root-reference commit takes back exactly its own delta. */
  lemma CompensationRestores<Doc, Op>(t: DocumentType<Doc, Op>, s: Session<Doc, Op>, d: Delta<Op>)
    requires Fits(s)
    ensures Perform(t, s, Apply(d, TakenBack)) == s
  {
  }

  /** The memory falls behind exactly when a delta could not be taken back. */
  lemma BehindByFailedCompensation<Doc, Op>(t: DocumentType<Doc, Op>, s: Session<Doc, Op>, o: Operation<Doc, Op>)
    requires Fits(s) && !Behind(s)
    ensures Behind(Perform(t, s, o)) <==> o.Apply? && s.memory.Some? && o.delta.version == |s.h.log| + 1 && o.fate.LeftBehind?
  {
    if o.Apply? && o.fate.TakenBack? {
      CompensationRestores(t, s, o.delta);
    }
  }

  /** An edit of the version in memory, or a step that neither edits nor rolls back nor reloads. */
  ghost predicate FromMemory<Doc, Op>(s: Session<Doc, Op>, o: Operation<Doc, Op>) {
    && (o.Apply? ==> s.memory.Some? && o.delta.version == s.memory.value.version + 1)
    && !o.Rollback? && !o.Restart?
  }

  /** Until it is loaded anew or rolled back, a session whose memory is behind refuses every edit of what it shows. */
  lemma {:induction false} StaleEditsConflict<Doc, Op>(t: DocumentType<Doc, Op>, s: Session<Doc, Op>, more: seq<Operation<Doc, Op>>)
    requires Fits(s) && Behind(s) && forall k :: 0 <= k < |more| ==> FromMemory(s, more[k])
    ensures var s' := RunFrom(t, s, more); s'.memory == s.memory && s'.h.log == s.h.log && s'.h.docs == s.h.docs
  {
    if more != [] {
      StaleEditsConflict(t, s, more[..|more| - 1]);
      assert FromMemory(s, more[|more| - 1]);
    }
  }

  function RunFrom<Doc, Op>(t: DocumentType<Doc, Op>, s: Session<Doc, Op>, ops: seq<Operation<Doc, Op>>): (s': Session<Doc, Op>)
    requires Fits(s)
    ensures Fits(s')
  {
    if ops == [] then s else Perform(t, RunFrom(t, s, ops[..|ops| - 1]), ops[|ops| - 1])
  }

  /** One step is right again exactly when it is not a lossy load; every version not written apart shows its operations. */
  lemma PerformKeeps<Doc, Op>(t: DocumentType<Doc, Op>, s: Session<Doc, Op>, o: Operation<Doc, Op>)
    requires Fits(s) && Right(t, s)
    ensures var s' := Perform(t, s, o);
      && (Right(t, s') <==> !LossyLoad(t, s, o))
      && s.h.log <= s'.h.log && s.h.docs <= s'.h.docs && |s'.h.log| <= |s.h.log| + 1
      && (2 <= |s'.h.log| == |s.h.log| + 1 && WrittenApart(s, o) == {} ==> Faithful(t, s'.h, |s'.h.log|))
  {
    if o.Apply? && o.fate.TakenBack? {
      CompensationRestores(t, s, o.delta);
    }
  }

  /** All versions but the first and those in `others` show their operations. */
  ghost predicate FaithfulBut<Doc, Op>(t: DocumentType<Doc, Op>, h: History<Doc, Op>, others: set<int>) {
    forall k :: 2 <= k <= |h.log| && k !in others ==> Faithful(t, h, k)
  }

  lemma FaithfulStep<Doc, Op>(t: DocumentType<Doc, Op>, s: Session<Doc, Op>, o: Operation<Doc, Op>, others: set<int>)
    requires Fits(s) && Right(t, s) && FaithfulBut(t, s.h, others)
    ensures FaithfulBut(t, Perform(t, s, o).h, others + WrittenApart(s, o))
  {
  }

  lemma {:induction false} RunKeeps<Doc, Op>(t: DocumentType<Doc, Op>, ops: seq<Operation<Doc, Op>>)
    requires NoLossyLoad(t, ops)
    ensures Right(t, Run(t, ops)) && FaithfulBut(t, Run(t, ops).h, Apart(t, ops))
  {
    if ops != [] {
      var earlier := ops[..|ops| - 1];
      forall k | 0 <= k < |earlier| ensures !LossyLoad(t, Run(t, earlier[..k]), earlier[k]) {
        assert earlier[..k] == ops[..k];
      }
      RunKeeps(t, earlier);
      PerformKeeps(t, Run(t, earlier), ops[|ops| - 1]);
      FaithfulStep(t, Run(t, earlier), ops[|ops| - 1], Apart(t, earlier));
    }
  }

  /**
   * Memory, cache and snapshots are what their versions showed at every point of a run if and only if no
   * load in it was lossy: a lossy load is itself the first wrong document, and nothing else brings one in.
   */
  lemma {:induction false} RightUnlessLossyLoad<Doc, Op>(t: DocumentType<Doc, Op>, ops: seq<Operation<Doc, Op>>)
    ensures AlwaysRight(t, ops) <==> NoLossyLoad(t, ops)
  {
    if NoLossyLoad(t, ops) {
      forall k | 0 <= k <= |ops| ensures Right(t, Run(t, ops[..k])) {
        forall j | 0 <= j < k ensures !LossyLoad(t, Run(t, ops[..k][..j]), ops[..k][j]) {
          assert ops[..k][..j] == ops[..j];
        }
        RunKeeps(t, ops[..k]);
      }
    }
    if AlwaysRight(t, ops) {
      forall k | 0 <= k < |ops| ensures !LossyLoad(t, Run(t, ops[..k]), ops[k]) {
        assert Right(t, Run(t, ops[..k])) && Right(t, Run(t, ops[..k + 1]));
        assert ops[..k + 1][..k] == ops[..k];
        PerformKeeps(t, Run(t, ops[..k]), ops[k]);
      }
    }
  }

  // ---------------------------------------------------------------- when a load is lossy

  lemma {:induction false} ReplayInTwo<Doc, Op>(t: DocumentType<Doc, Op>, a: seq<Delta<Op>>, b: seq<Delta<Op>>, doc: Doc)
    ensures Replay(t, a + b, doc) == Replay(t, b, Replay(t, a, doc))
  {
    if b == [] {
      assert a + b == a;
    } else {
      ReplayInTwo(t, a, b[..|b| - 1], doc);
      assert (a + b)[..|a + b| - 1] == a + b[..|b| - 1];
    }
  }

  /** A version written apart after everything stored, and no other after it. */
  ghost predicate LastApart<Doc, Op>(t: DocumentType<Doc, Op>, ops: seq<Operation<Doc, Op>>, r: int) {
    var h := Run(t, ops).h;
    LoadBase(h) < r <= |h.log| && r in Apart(t, ops) && forall k :: r < k <= |h.log| ==> k !in Apart(t, ops)
  }

  /**
   * While nothing went wrong yet, a load is lossy if and only if a version written apart lies after everything
   * stored, and the deltas after the last such one tell what the replay makes of it from what it showed.
   */
  lemma {:induction false} LoadIsLossyIff<Doc, Op>(t: DocumentType<Doc, Op>, ops: seq<Operation<Doc, Op>>)
    requires NoLossyLoad(t, ops) && Run(t, ops).memory.None? && Run(t, ops).h.log != []
    ensures var s := Run(t, ops); var h := s.h;
      LossyLoad(t, s, Load) <==>
        exists r :: LastApart(t, ops, r)
                    && Replay(t, h.log[r..], Replay(t, h.log[LoadBase(h)..r], StoredAt(t, h))) != Replay(t, h.log[r..], h.docs[r])
  {
    RunKeeps(t, ops);
    var h := Run(t, ops).h;
    if exists r :: LoadBase(h) < r <= |h.log| && r in Apart(t, ops) {
      var r := LastOf(Apart(t, ops), LoadBase(h), |h.log|);
      assert LastApart(t, ops, r);
      LoadPastApart(t, ops, r);
      forall r' | LastApart(t, ops, r') ensures r' == r {}
    } else {
      LoadAfterNoneApart(t, ops);
    }
  }

  lemma {:induction false} LastOf(s: set<int>, low: int, high: int) returns (r: int)
    requires exists x :: low < x <= high && x in s
    ensures low < r <= high && r in s && forall k :: r < k <= high ==> k !in s
    decreases high - low
  {
    if high in s {
      r := high;
    } else {
      var x :| low < x <= high && x in s;
      assert x <= high - 1;
      r := LastOf(s, low, high - 1);
    }
  }

  lemma {:induction false} LoadPastApart<Doc, Op>(t: DocumentType<Doc, Op>, ops: seq<Operation<Doc, Op>>, r: int)
    requires NoLossyLoad(t, ops) && LastApart(t, ops, r)
    ensures var h := Run(t, ops).h;
      && LoadedDoc(t, h) == Replay(t, h.log[r..], Replay(t, h.log[LoadBase(h)..r], StoredAt(t, h)))
      && h.docs[|h.log|] == Replay(t, h.log[r..], h.docs[r])
  {
    RunKeeps(t, ops);
    var h := Run(t, ops).h;
    assert 1 in h.snapshots && LoadBase(h) >= 1;
    forall k | r < k <= |h.log| ensures Faithful(t, h, k) {}
    assert h.log[LoadBase(h)..] == h.log[LoadBase(h)..|h.log|] && h.log[r..] == h.log[r..|h.log|];
    ReplayThrough(t, h, LoadBase(h), StoredAt(t, h), r, |h.log|);
  }

  /** A replay cut at a version after which every version shows its operations. */
  lemma {:induction false} ReplayThrough<Doc, Op>(t: DocumentType<Doc, Op>, h: History<Doc, Op>, base: nat, start: Doc, r: nat, target: nat)
    requires Sound(t, h) && base <= r <= target <= |h.log| && FaithfulAfter(t, h, r, target)
    ensures Replay(t, h.log[base..target], start) == Replay(t, h.log[r..target], Replay(t, h.log[base..r], start))
    ensures h.docs[target] == Replay(t, h.log[r..target], h.docs[r])
  {
    assert h.log[base..target] == h.log[base..r] + h.log[r..target];
    ReplayInTwo(t, h.log[base..r], h.log[r..target], start);
    ReplayCatchesUp(t, h, r, target);
  }

  lemma {:induction false} LoadAfterNoneApart<Doc, Op>(t: DocumentType<Doc, Op>, ops: seq<Operation<Doc, Op>>)
    requires NoLossyLoad(t, ops) && Run(t, ops).h.log != []
    requires forall r :: LoadBase(Run(t, ops).h) < r <= |Run(t, ops).h.log| ==> r !in Apart(t, ops)
    ensures var h := Run(t, ops).h; LoadedDoc(t, h) == h.docs[|h.log|]
  {
    RunKeeps(t, ops);
    var h := Run(t, ops).h;
    assert 1 in h.snapshots && LoadBase(h) >= 1;
    ReplayCatchesUp(t, h, LoadBase(h), |h.log|);
    assert h.log[LoadBase(h)..] == h.log[LoadBase(h)..|h.log|];
  }

  /** A load that finds a version written apart after everything stored. */
  ghost predicate PassesApart<Doc, Op>(t: DocumentType<Doc, Op>, ops: seq<Operation<Doc, Op>>, o: Operation<Doc, Op>) {
    var s := Run(t, ops);
    o.Load? && s.memory.None? && exists r :: LoadBase(s.h) < r <= |s.h.log| && r in Apart(t, ops)
  }

  lemma {:induction false} OneMoreLoad<Doc, Op>(t: DocumentType<Doc, Op>, ops: seq<Operation<Doc, Op>>)
    requires ops != [] && NoLossyLoad(t, ops[..|ops| - 1]) && !PassesApart(t, ops[..|ops| - 1], ops[|ops| - 1])
    ensures NoLossyLoad(t, ops)
  {
    var earlier, o := ops[..|ops| - 1], ops[|ops| - 1];
    if o.Load? && Run(t, earlier).memory.None? && Run(t, earlier).h.log != [] {
      LoadAfterNoneApart(t, earlier);
    }
    forall k | 0 <= k < |ops| ensures !LossyLoad(t, Run(t, ops[..k]), ops[k]) {
      if k < |earlier| {
        assert earlier[..k] == ops[..k] && earlier[k] == ops[k];
        assert !LossyLoad(t, Run(t, earlier[..k]), earlier[k]);
      }
    }
  }

  /** It is enough that each rollback, and each edit of a memory that was behind, was cached or snapshotted, or anything after it was, before the next load. */
  lemma {:induction false} NothingApartPassed<Doc, Op>(t: DocumentType<Doc, Op>, ops: seq<Operation<Doc, Op>>)
    requires forall k :: 0 <= k < |ops| ==> !PassesApart(t, ops[..k], ops[k])
    ensures NoLossyLoad(t, ops) && AlwaysRight(t, ops)
  {
    if ops != [] {
      var earlier, o := ops[..|ops| - 1], ops[|ops| - 1];
      forall k | 0 <= k < |earlier| ensures !PassesApart(t, earlier[..k], earlier[k]) {
        assert earlier[..k] == ops[..k] && earlier[k] == ops[k];
      }
      NothingApartPassed(t, earlier);
      assert !PassesApart(t, earlier, o);
      OneMoreLoad(t, ops);
    }
    RightUnlessLossyLoad(t, ops);
  }

  /**
   * Whatever a session did, with root references failing, the cache lost and the session restarted at any
   * point, but no load lossy: a version rebuilds to what it showed if none written apart lies between its nearest
   * snapshot and it. If the last one there is `r`, it does so if and only if the later deltas do not tell
   * what the replay makes of version `r` from what that showed. The empty delta of the creation is never
   * replayed onto a blank document.
   */
  lemma {:induction false} ReloadShowsWhatWasShown<Doc, Op>(t: DocumentType<Doc, Op>, ops: seq<Operation<Doc, Op>>, target: nat, r: nat)
    requires NoLossyLoad(t, ops) && 1 <= target <= |Run(t, ops).h.log|
    requires Nearest(Run(t, ops).h.snapshots, target) <= r <= target
    requires forall k :: r < k <= target ==> k !in Apart(t, ops)
    ensures var h := Run(t, ops).h; var base := Nearest(h.snapshots, target);
      && 1 <= base && base in h.snapshots && IsBase(h.snapshots, target, base)
      && (r == base ==> Rebuilt(t, h, base, target) == h.docs[target])
      && (Rebuilt(t, h, base, target) == h.docs[target]
          <==> Replay(t, h.log[r..target], Replay(t, h.log[base..r], h.snapshots[base])) == Replay(t, h.log[r..target], h.docs[r]))
  {
    var h := Run(t, ops).h;
    RunKeeps(t, ops);
    assert 1 in h.snapshots;
    var base := Nearest(h.snapshots, target);
    forall k | r < k <= target ensures Faithful(t, h, k) {}
    ReplayThrough(t, h, base, h.snapshots[base], r, target);
    assert h.log[base..base] == [];
  }

  /** A rollback of a session without lossy loads shows what its target showed, if none written apart lies after the target's nearest snapshot. */
  lemma {:induction false} RollbackShowsTarget<Doc, Op>(t: DocumentType<Doc, Op>, ops: seq<Operation<Doc, Op>>, target: nat)
    requires NoLossyLoad(t, ops) && Run(t, ops).memory.Some? && 1 <= target <= |Run(t, ops).h.log|
    requires forall k :: Nearest(Run(t, ops).h.snapshots, target) < k <= target ==> k !in Apart(t, ops)
    ensures var s := Run(t, ops); ShowsAgain(s, Perform(t, s, Rollback(target)), target)
  {
    var s := Run(t, ops);
    ReloadShowsWhatWasShown(t, ops, target, Nearest(s.h.snapshots, target));
    RollbackShows(t, s, target);
  }

  /** One more version, of an empty delta, shows what an earlier one showed. */
  predicate ShowsAgain<Doc(==), Op(==)>(s: Session<Doc, Op>, s': Session<Doc, Op>, target: nat) {
    && |s'.h.log| == |s.h.log| + 1 && s'.h.log[..|s.h.log|] == s.h.log && s'.h.log[|s.h.log|].operations == []
    && target < |s.h.docs| && s'.memory == Some(Cached(|s.h.log| + 1, s.h.docs[target])) && s'.h.docs == s.h.docs + [s.h.docs[target]]
    && s'.h.snapshots == s.h.snapshots && s'.h.cache == s.h.cache
  }

  lemma RollbackShows<Doc, Op>(t: DocumentType<Doc, Op>, s: Session<Doc, Op>, target: nat)
    requires Fits(s) && s.memory.Some? && 1 <= target <= |s.h.log|
    requires Rebuilt(t, s.h, Nearest(s.h.snapshots, target), target) == s.h.docs[target]
    ensures ShowsAgain(s, Perform(t, s, Rollback(target)), target)
  {
  }

  // ---------------------------------------------------------------- what a restart finds

  /** What was cached, or snapshotted before the cache was lost, is what a restarted session loads, unless it was behind. */
  lemma StoredIsLoaded<Doc, Op>(t: DocumentType<Doc, Op>, s: Session<Doc, Op>)
    requires Fits(s) && s.memory.Some? && !Behind(s)
    ensures Perform(t, Perform(t, Perform(t, s, FillCache), Restart), Load).memory == s.memory
    ensures Perform(t, Perform(t, Perform(t, Perform(t, s, TakeSnapshot), LoseCache), Restart), Load).memory == s.memory
  {
    var head := |s.h.log|;
    assert s.memory.value.version == head;
    assert s.h.log[head..] == [];
    var cached := Perform(t, Perform(t, s, FillCache), Restart);
    assert LoadBase(cached.h) == head && LoadedDoc(t, cached.h) == s.memory.value.doc;
    var kept := Perform(t, Perform(t, Perform(t, s, TakeSnapshot), LoseCache), Restart);
    assert Nearest(kept.h.snapshots, head) == head;
    assert LoadBase(kept.h) == head && LoadedDoc(t, kept.h) == s.memory.value.doc;
  }

  /** A session without a document refuses to edit, roll back and store; one with a document loads nothing; nothing is created twice. */
  lemma RefusedOperations<Doc, Op>(t: DocumentType<Doc, Op>, s: Session<Doc, Op>, d: Delta<Op>, fate: Fate, target: int, doc: Doc)
    requires Fits(s)
    ensures s.memory.None? || d.version != |s.h.log| + 1 ==> Perform(t, s, Apply(d, fate)) == s
    ensures s.memory.None? || target < 1 || target > |s.h.log| ==> Perform(t, s, Rollback(target)) == s
    ensures s.memory.None? ==> Perform(t, s, TakeSnapshot) == s && Perform(t, s, FillCache) == s
    ensures s.memory.Some? || s.h.log == [] ==> Perform(t, s, Load) == s
    ensures s.h.log != [] ==> Perform(t, s, Create(doc)) == s
  {
  }

  // ---------------------------------------------------------------- a lossy load that lasts

  lemma {:induction false} Extended<Doc, Op>(t: DocumentType<Doc, Op>, ops: seq<Operation<Doc, Op>>, o: Operation<Doc, Op>)
    ensures Run(t, ops + [o]) == Perform(t, Run(t, ops), o)
  {
  }

  /** Create and one edit, which stays in the log. */
  lemma EditedSession(created: int, edit: int, fate: Fate) returns (ops: seq<Operation<int, int>>)
    requires !fate.TakenBack?
    ensures var s := Run(Sums, ops);
      && s.h.docs == [0, created, created + edit] && s.h.snapshots == map[1 := created] && s.h.cache.None?
      && s.memory == Some(if fate.Committed? then Cached(2, created + edit) else Cached(1, created))
      && |s.h.log| == 2 && s.h.log[1].operations == [edit]
  {
    ops := [];
    Extended(Sums, ops, Create(created));
    ops := ops + [Create(created)];
    var edited := Apply(Delta(2, 0, "", [edit]), fate);
    Extended(Sums, ops, edited);
    ops := ops + [edited];
  }

  /** Create, one edit, and a rollback to the first version. */
  lemma RolledBackSession(created: int, edit: int) returns (ops: seq<Operation<int, int>>)
    ensures var s := Run(Sums, ops);
      && s.h.docs == [0, created, created + edit, created] && s.h.snapshots == map[1 := created] && s.memory == Some(Cached(3, created))
      && |s.h.log| == 3 && s.h.log[1].operations == [edit] && s.h.log[2].operations == []
  {
    ops := EditedSession(created, edit, Committed);
    var h := Run(Sums, ops).h;
    assert Nearest(h.snapshots, 1) == 1 && h.log[1..1] == [];
    assert Rebuilt(Sums, h, 1, 1) == created;
    Extended(Sums, ops, Rollback(1));
    ops := ops + [Rollback(1)];
  }

  /** The replay of a rolled-back session from its first version shows the edit again. */
  lemma ReplayShowsEditAgain(h: History<int, int>, created: int, edit: int)
    requires Shaped(h) && h.cache.None? && h.snapshots == map[1 := created]
    requires |h.log| == 3 && h.log[1].operations == [edit] && h.log[2].operations == []
    ensures LoadBase(h) == 1 && LoadedDoc(Sums, h) == created + edit
  {
    assert Nearest(h.snapshots, 2) == 1 && Nearest(h.snapshots, 3) == 1;
    var tail := h.log[1..];
    assert tail[..1] == [h.log[1]] && [h.log[1]][..0] == [];
    assert Replay(Sums, tail[..1], created) == created + edit;
  }

  lemma SnapshotTaken<Doc, Op>(t: DocumentType<Doc, Op>, s: Session<Doc, Op>)
    requires Fits(s) && s.memory.Some?
    ensures var s' := Perform(t, s, TakeSnapshot);
      && s'.memory == s.memory && s'.h.docs == s.h.docs
      && s'.h.snapshots == s.h.snapshots[s.memory.value.version := s.memory.value.doc]
  {
  }

  lemma {:induction false} StillLossy<Doc, Op>(t: DocumentType<Doc, Op>, ops: seq<Operation<Doc, Op>>, o: Operation<Doc, Op>)
    requires !NoLossyLoad(t, ops)
    ensures !NoLossyLoad(t, ops + [o])
  {
    var k :| 0 <= k < |ops| && LossyLoad(t, Run(t, ops[..k]), ops[k]);
    assert (ops + [o])[..k] == ops[..k] && (ops + [o])[k] == ops[k];
  }

  /** A lost cache and a restart after that rollback: the load shows the edit again. */
  lemma ReloadedSession(created: int, edit: int) returns (ops: seq<Operation<int, int>>)
    ensures var s := Run(Sums, ops);
      |s.h.docs| == 4 && s.h.docs[3] == created && s.memory == Some(Cached(3, created + edit))
    ensures edit != 0 ==> !NoLossyLoad(Sums, ops)
  {
    ops := RolledBackSession(created, edit);
    Extended(Sums, ops, LoseCache);
    ops := ops + [LoseCache];
    Extended(Sums, ops, Restart);
    ops := ops + [Restart];
    var before, s := ops, Run(Sums, ops);
    ReplayShowsEditAgain(s.h, created, edit);
    Extended(Sums, ops, Load);
    ops := ops + [Load];
    assert ops[..|before|] == before && ops[|before|] == Load;
    assert edit != 0 ==> LossyLoad(Sums, Run(Sums, ops[..|before|]), ops[|before|]);
  }

  /** A snapshot then keeps the edit for the rollback's version. */
  lemma LossyLoadIsKept(created: int, edit: int) returns (ops: seq<Operation<int, int>>)
    requires edit != 0
    ensures var s := Run(Sums, ops);
      && |s.h.docs| == 4 && s.h.docs[3] == created && s.memory == Some(Cached(3, created + edit))
      && 3 in s.h.snapshots && s.h.snapshots[3] == created + edit
    ensures !NoLossyLoad(Sums, ops)
  {
    var loaded := ReloadedSession(created, edit);
    ops := loaded + [TakeSnapshot];
    SnapshotTaken(Sums, Run(Sums, loaded));
    Extended(Sums, loaded, TakeSnapshot);
    assert !NoLossyLoad(Sums, ops) by {
      StillLossy(Sums, loaded, TakeSnapshot);
    }
  }

  /** Create, an edit that could not be taken back, and one sent for the version after it. */
  lemma EditedFromBehind(created: int, left: int, edit: int) returns (ops: seq<Operation<int, int>>)
    ensures var s := Run(Sums, ops);
      && s.h.docs == [0, created, created + left, created + edit] && s.h.snapshots == map[1 := created] && s.h.cache.None?
      && |s.h.log| == 3 && s.h.log[1].operations == [left] && s.h.log[2].operations == [edit]
  {
    ops := EditedSession(created, left, LeftBehind);
    var second := Apply(Delta(3, 0, "", [edit]), Committed);
    Extended(Sums, ops, second);
    ops := ops + [second];
  }

  lemma ReplayShowsBothEdits(h: History<int, int>, created: int, left: int, edit: int)
    requires Shaped(h) && h.cache.None? && h.snapshots == map[1 := created]
    requires |h.log| == 3 && h.log[1].operations == [left] && h.log[2].operations == [edit]
    ensures LoadBase(h) == 1 && LoadedDoc(Sums, h) == created + left + edit
  {
    assert Nearest(h.snapshots, 2) == 1 && Nearest(h.snapshots, 3) == 1;
    var tail := h.log[1..];
    assert tail[..1] == [h.log[1]] && [h.log[1]][..0] == [];
    assert Replay(Sums, tail[..1], created) == created + left;
  }

  /** The edit reported as failed is missing from the version written next, and back after a reload. */
  lemma FailedEditReturns(created: int, left: int, edit: int) returns (ops: seq<Operation<int, int>>)
    ensures var s := Run(Sums, ops);
      && |s.h.docs| == 4 && s.h.docs[3] == created + edit && s.memory == Some(Cached(3, created + left + edit))
    ensures left != 0 ==> !NoLossyLoad(Sums, ops)
  {
    ops := EditedFromBehind(created, left, edit);
    Extended(Sums, ops, Restart);
    ops := ops + [Restart];
    var before := ops;
    ReplayShowsBothEdits(Run(Sums, ops).h, created, left, edit);
    Extended(Sums, ops, Load);
    ops := ops + [Load];
    assert ops[..|before|] == before && ops[|before|] == Load;
    assert left != 0 ==> LossyLoad(Sums, Run(Sums, ops[..|before|]), ops[|before|]);
  }
}
