/** Counting the versions that carry a state hash. */
module VersionCounts {
  import opened DocumentTables

  /** How many versions carry a hash. */
  ghost function Carrying(versions: map<int, Version>, hash: string): nat {
    |set v | v in versions && versions[v].stateHash == hash|
  }

  /** A new version adds one to the count of its own hash and nothing to any other. */
  lemma AddingAVersion(versions: map<int, Version>, versions': map<int, Version>, v: int, h: string)
    requires v !in versions && v in versions' && versions' == versions[v := versions'[v]]
    ensures Carrying(versions', h) == Carrying(versions, h) + if versions'[v].stateHash == h then 1 else 0
  {
    var carrying := set w | w in versions && versions[w].stateHash == h;
    var carrying' := set w | w in versions' && versions'[w].stateHash == h;
    var added := if versions'[v].stateHash == h then {v} else {};
    forall w ensures w in carrying' <==> w in carrying + added {}
    assert carrying' == carrying + added;
    assert |carrying + added| == |carrying| + |added|;
  }

  lemma PresentIsCarried(versions: map<int, Version>, v: int)
    requires v in versions
    ensures Carrying(versions, versions[v].stateHash) >= 1
  {
    var carrying := set w | w in versions && versions[w].stateHash == versions[v].stateHash;
    assert v in carrying;
  }
}

/**
 * The commit protocol run by any number of clients against one platform document and the
 * content store that counts root references.
 *
 * A client's program counter says which awaited call comes next, and one action performs exactly one
 * such call, so calls of different clients interleave freely. A client that is never advanced again,
 * or that is removed, has crashed, whether or not its last call took effect; starting another client
 * with the same arguments is a retry.
 */
module PlatformProtocol {
  import opened Wrappers
  import opened DocumentTables
  import opened VersionCounts

  // ---------------------------------------------------------------- the root store

  datatype RequestId = CreateRoot(digest: Digest) | CommitRoot(digest: Digest)

  /** Root updates applied so far, by request id with their payload, and the references they made. */
  datatype RootStore = RootStore(applied: map<RequestId, string>, refs: map<string, nat>)

  function Refs(r: RootStore, hash: string): nat {
    if hash in r.refs then r.refs[hash] else 0
  }

  /** A request id is applied once; repeating it with another payload is an error. */
  function Retain(r: RootStore, id: RequestId, hash: string): (RootStore, bool) {
    if id in r.applied then (r, r.applied[id] == hash)
    else (RootStore(r.applied[id := hash], r.refs[hash := Refs(r, hash) + 1]), true)
  }

  // ---------------------------------------------------------------- clients

  datatype Origin = Standalone | FromCommit | FromEditor

  datatype Client =
    // createPlatformDocument
    | Creating(identity: Identity, stateHash: string, at: int)
    | RetainingCreation(creation: Creation, at: int)
    | FinishingCreation(creation: Creation, at: int)
    | Made(created: Created)
    // commitPlatformEditorSnapshot
    | CheckingStatus(operationId: string, baseVersion: int, at: int)
    | Capturing(operationId: string, baseVersion: int, at: int)
    // commitPlatformDocument; `beginCommit` awaits its digest between a read and a transaction
    | Committing(candidate: Candidate, at: int)
    | Digested(candidate: Candidate, digest: Digest, at: int)
    // resumePlatformCommit
    | Resuming(operationId: string, at: int, origin: Origin)
    | ReadingStatus(operationId: string, origin: Origin)
    | RetainingCommit(pending: PendingCommit, at: int, origin: Origin)
    | FinishingCommit(operationId: string, at: int, origin: Origin)
    // ends
    | Returned(operationId: string, origin: Origin, status: Status)
    | Threw(error: Error)
    | Disappeared
    | RetentionFailed

  /** The calls a client may start with. */
  predicate Entry(c: Client) {
    c.Creating? || c.CheckingStatus? || c.Committing? || (c.Resuming? && c.origin == Standalone)
  }

  predicate Finished(c: Client) {
    c.Made? || c.Returned? || c.Threw? || c.Disappeared? || c.RetentionFailed?
  }

  datatype System = System(tables: Tables, roots: RootStore, clients: map<nat, Client>)

  const Init: System := System(EmptyTables, RootStore(map[], map[]), map[])

  /** One awaited call of a client; `captured` is the hash under which a captured snapshot was stored. */
  function Advance(t: Tables, r: RootStore, c: Client, captured: string): (Tables, RootStore, Client) {
    match c
    case Creating(identity, hash, at) =>
      var (t', answer) := BeginCreate(t, identity, hash);
      (t', r, if answer.Success? then RetainingCreation(answer.value, at) else Threw(answer.error))
    case RetainingCreation(creation, at) =>
      var (r', ok) := Retain(r, CreateRoot(creation.requestDigest), creation.stateHash);
      (t, r', if ok then FinishingCreation(creation, at) else RetentionFailed)
    case FinishingCreation(creation, at) =>
      var (t', answer) := CreateRetained(t, creation.identity, creation.stateHash, at);
      (t', r, if answer.Success? then Made(answer.value) else Threw(answer.error))
    case CheckingStatus(op, base, at) =>
      var answer := CommitStatus(t, op);
      (t, r,
       if answer.Failure? then Threw(answer.error)
       else if answer.value.Unknown? then Capturing(op, base, at)
       else if answer.value.receipt.Terminal() then Returned(op, FromEditor, answer.value)
       else Resuming(op, at, FromEditor))
    case Capturing(op, base, at) => (t, r, Committing(Candidate(op, base, captured), at))
    case Committing(candidate, at) =>
      var answer := ReadIdentity(t, candidate);
      (t, r,
       if answer.Success? then Digested(candidate, CommitDigest(answer.value, candidate), at)
       else Threw(answer.error))
    case Digested(candidate, digest, at) =>
      var (t', answer) := BeginCommit(t, candidate, digest);
      (t', r,
       if answer.Failure? then Threw(answer.error)
       else if answer.value.Terminal() then Returned(candidate.operationId, FromCommit, Known(answer.value))
       else Resuming(candidate.operationId, at, FromCommit))
    case Resuming(op, at, origin) =>
      var answer := FindPending(t, op);
      (t, r,
       if answer.Failure? then Threw(answer.error)
       else if answer.value.Some? then RetainingCommit(answer.value.value, at, origin)
       else ReadingStatus(op, origin))
    case ReadingStatus(op, origin) =>
      var answer := CommitStatus(t, op);
      (t, r,
       if answer.Failure? then Threw(answer.error)
       else if answer.value.Unknown? && origin == FromCommit then Disappeared
       else Returned(op, origin, answer.value))
    case RetainingCommit(p, at, origin) =>
      var (r', ok) := Retain(r, CommitRoot(p.receipt.requestDigest), p.candidate.stateHash);
      (t, r', if ok then FinishingCommit(p.candidate.operationId, at, origin) else RetentionFailed)
    case FinishingCommit(op, at, origin) =>
      var (t', answer) := CommitRetained(t, op, at);
      (t', r, if answer.Success? then Returned(op, origin, Known(answer.value)) else Threw(answer.error))
    case _ => (t, r, c)
  }

  datatype Action =
    | Start(id: nat, client: Client)
    | Await(id: nat, captured: string)
    | Crash(id: nat)

  function Step(s: System, a: Action): System {
    match a
    case Start(id, c) => if id !in s.clients && Entry(c) then s.(clients := s.clients[id := c]) else s
    case Await(id, captured) =>
      if id !in s.clients then s
      else
        var (t, r, c) := Advance(s.tables, s.roots, s.clients[id], captured);
        System(t, r, s.clients[id := c])
    case Crash(id) => s.(clients := s.clients - {id})
  }

  function Run(s: System, actions: seq<Action>): System {
    if actions == [] then s
    else Step(Run(s, actions[..|actions| - 1]), actions[|actions| - 1])
  }

  // ---------------------------------------------------------------- what every reachable state satisfies

  /** The stored form of an intent of this document. */
  predicate SoundIntent(d: Document, versions: map<int, Version>, op: string, i: Intent) {
    var candidate := Candidate(op, i.baseVersion, i.stateHash);
    && ValidCandidate(candidate)
    && i.requestDigest == CommitDigest(d.identity, candidate)
    && i.receipt.operationId == op && i.receipt.baseVersion == i.baseVersion
    && i.receipt.requestDigest == i.requestDigest
    && match i.receipt.outcome
       case Pending => i.baseVersion == d.headVersion
       case Committed(v) => v == i.baseVersion + 1 && v <= d.headVersion && v in versions && versions[v].stateHash == i.stateHash
       case Rejected(h) => h != i.baseVersion && 1 <= h <= d.headVersion
  }

  predicate CommittedAs(t: Tables, op: string, v: int) {
    op in t.intents && t.intents[op].receipt.outcome == Committed(v)
  }

  /** Version `v` was published by some commit. */
  ghost predicate Published(t: Tables, v: int) {
    exists op :: CommittedAs(t, op, v)
  }

  predicate IsPending(t: Tables, op: string) {
    op in t.intents && t.intents[op].receipt.outcome.Pending?
  }

  ghost predicate TablesInv(t: Tables) {
    match t.document
    case None =>
      && t.versions == map[] && t.intents == map[]
      && (t.creation.Some? ==>
            && t.creation.value.requestDigest == CreationDigest(t.creation.value.identity, t.creation.value.stateHash)
            && ValidIdentity(t.creation.value.identity) && ValidHash(t.creation.value.stateHash))
    case Some(d) =>
      && t.creation.None?
      && 1 <= d.headVersion <= MAX_SAFE_INTEGER
      && (forall v :: v in t.versions <==> 1 <= v <= d.headVersion)
      && (forall op :: op in t.intents ==> SoundIntent(d, t.versions, op, t.intents[op]))
      && (forall op, op' :: IsPending(t, op) && IsPending(t, op') ==> op == op')
      && (forall v :: 2 <= v <= d.headVersion ==> Published(t, v))
      && (forall op, op', v :: CommittedAs(t, op, v) && CommittedAs(t, op', v) ==> op == op')
  }

  /** The creation was retained but the document does not exist yet. */
  predicate CreationUnfinalised(t: Tables, r: RootStore, hash: string) {
    t.creation.Some? && t.creation.value.stateHash == hash && CreateRoot(t.creation.value.requestDigest) in r.applied
  }

  predicate RetainedPending(t: Tables, r: RootStore, op: string) {
    IsPending(t, op) && CommitRoot(t.intents[op].requestDigest) in r.applied
  }

  /** The pending commit was retained but is not committed yet. */
  predicate CommitUnfinalised(t: Tables, r: RootStore, hash: string) {
    exists op :: op in t.intents && RetainedPending(t, r, op) && t.intents[op].stateHash == hash
  }

  function Outstanding(t: Tables, r: RootStore, hash: string): nat {
    (if CreationUnfinalised(t, r, hash) then 1 else 0) + (if CommitUnfinalised(t, r, hash) then 1 else 0)
  }

  /** What an applied root request stands for: this document's creation, or a commit that was not rejected. */
  predicate Earned(t: Tables, id: RequestId, hash: string) {
    match id
    case CreateRoot(g) =>
      && g.CreationDigest? && g.stateHash == hash
      && (|| (t.creation.Some? && t.creation.value.requestDigest == g)
          || (t.document.Some? && t.document.value.identity == g.identity && 1 in t.versions && t.versions[1].stateHash == hash))
    case CommitRoot(g) =>
      && g.CommitDigest? && g.candidate.operationId in t.intents
      && var i := t.intents[g.candidate.operationId];
         i.requestDigest == g && i.stateHash == hash && !i.receipt.outcome.Rejected?
  }

  ghost predicate RootsInv(t: Tables, r: RootStore) {
    && (forall id :: id in r.applied ==> Earned(t, id, r.applied[id]))
    && (t.document.Some? && 1 in t.versions ==>
          CreateRoot(CreationDigest(t.document.value.identity, t.versions[1].stateHash)) in r.applied)
    && (forall op :: op in t.intents && t.intents[op].receipt.outcome.Committed? ==>
          CommitRoot(t.intents[op].requestDigest) in r.applied)
    && (forall hash :: Refs(r, hash) == Carrying(t.versions, hash) + Outstanding(t, r, hash))
  }

  /** A creation this document has accepted, finished or not. */
  predicate Agreed(t: Tables, c: Creation) {
    && c.requestDigest == CreationDigest(c.identity, c.stateHash)
    && ValidIdentity(c.identity) && ValidHash(c.stateHash)
    && (|| t.creation == Some(c)
        || (t.document.Some? && t.document.value.identity == c.identity && 1 in t.versions && t.versions[1].stateHash == c.stateHash))
  }

  predicate Settled(t: Tables, op: string, status: Status) {
    op in t.intents && t.intents[op].receipt.Terminal() && status == Known(t.intents[op].receipt)
  }

  ghost predicate ClientInv(t: Tables, r: RootStore, c: Client) {
    match c
    case RetainingCreation(creation, _) => Agreed(t, creation)
    case FinishingCreation(creation, _) => Agreed(t, creation) && CreateRoot(creation.requestDigest) in r.applied
    case Made(created) =>
      && t.document.Some? && t.document.value.identity == created.identity
      && 1 in t.versions && created.head == Head(1, t.versions[1].stateHash, t.versions[1].createdAt)
    case Digested(candidate, digest, _) =>
      && ValidCandidate(candidate) && t.document.Some?
      && digest == CommitDigest(t.document.value.identity, candidate)
    case Resuming(op, _, origin) => origin != Standalone ==> op in t.intents
    case ReadingStatus(op, origin) =>
      ValidOperationId(op) && (origin != Standalone ==> op in t.intents && t.intents[op].receipt.Terminal())
    case RetainingCommit(p, _, _) =>
      && p.candidate.operationId in t.intents
      && var i := t.intents[p.candidate.operationId];
         && i.requestDigest == p.receipt.requestDigest && i.stateHash == p.candidate.stateHash
         && !i.receipt.outcome.Rejected?
    case FinishingCommit(op, _, _) =>
      && op in t.intents && !t.intents[op].receipt.outcome.Rejected?
      && CommitRoot(t.intents[op].requestDigest) in r.applied
    case Returned(op, origin, status) =>
      if origin == Standalone then status.Known? && status.receipt.Terminal() ==> Settled(t, op, status)
      else Settled(t, op, status)
    case Threw(e) => e in {InvalidArgument, CreateConflict, DocumentNotFound, PayloadConflict, UniqueViolation}
    case Disappeared => false
    case RetentionFailed => false
    case _ => true
  }

  ghost predicate Inv(s: System) {
    TablesInv(s.tables) && RootsInv(s.tables, s.roots)
    && forall id :: id in s.clients ==> ClientInv(s.tables, s.roots, s.clients[id])
  }

  /** What no step takes away: versions, accepted creations, intents, terminal receipts, applied roots. */
  ghost predicate Grows(t: Tables, r: RootStore, t': Tables, r': RootStore) {
    && (t.document.Some? ==> t'.document.Some? && t'.document.value.identity == t.document.value.identity)
    && (forall v :: v in t.versions ==> v in t'.versions && t'.versions[v] == t.versions[v])
    && (t.creation.Some? ==> t'.creation == t.creation || Agreed(t', t.creation.value))
    && (forall op :: op in t.intents ==> op in t'.intents && IntentKept(t.intents[op], t'.intents[op]))
    && (forall id :: id in r.applied ==> id in r'.applied)
  }

  predicate IntentKept(i: Intent, i': Intent) {
    && i'.baseVersion == i.baseVersion && i'.requestDigest == i.requestDigest && i'.stateHash == i.stateHash
    && (i'.receipt == i.receipt || (i.receipt.outcome.Pending? && i'.receipt.outcome.Committed?))
  }

  lemma ClientInvIsStable(t: Tables, r: RootStore, t': Tables, r': RootStore, c: Client)
    requires ClientInv(t, r, c) && Grows(t, r, t', r')
    ensures ClientInv(t', r', c)
  {
  }

  // ---------------------------------------------------------------- one table operation at a time

  lemma BeginCreateKeeps(t: Tables, r: RootStore, identity: Identity, hash: string)
    requires TablesInv(t) && RootsInv(t, r)
    ensures var (t', answer) := BeginCreate(t, identity, hash);
            && TablesInv(t') && RootsInv(t', r) && Grows(t, r, t', r)
            && (answer.Success? ==> Agreed(t', answer.value))
            && (answer.Failure? ==> answer.error in {InvalidArgument, CreateConflict})
  {
    var t' := BeginCreate(t, identity, hash).0;
    if t' != t {
      AcceptingKeepsRoots(t, r, Creation(identity, hash, CreationDigest(identity, hash)));
    }
  }

  lemma AcceptingKeepsRoots(t: Tables, r: RootStore, creation: Creation)
    requires TablesInv(t) && RootsInv(t, r) && t.document.None? && t.creation.None?
    requires creation.requestDigest == CreationDigest(creation.identity, creation.stateHash)
    ensures RootsInv(t.(creation := Some(creation)), r)
  {
  }

  lemma CreateRetainedKeeps(t: Tables, r: RootStore, creation: Creation, at: int)
    requires TablesInv(t) && RootsInv(t, r)
    requires Agreed(t, creation) && CreateRoot(creation.requestDigest) in r.applied
    ensures var (t', answer) := CreateRetained(t, creation.identity, creation.stateHash, at);
            && TablesInv(t') && RootsInv(t', r) && Grows(t, r, t', r)
            && (answer.Success? ==> ClientInv(t', r, Made(answer.value)))
            && (answer.Failure? ==> answer.error in {InvalidArgument, CreateConflict})
  {
    var (t', answer) := CreateRetained(t, creation.identity, creation.stateHash, at);
    if t' != t {
      forall h ensures Carrying(t'.versions, h) + Outstanding(t', r, h) == Carrying(t.versions, h) + Outstanding(t, r, h) {
        AddingAVersion(t.versions, t'.versions, 1, h);
      }
    }
  }

  /** `t'` is `t` with one new intent, pending only if no other is. */
  ghost predicate Recorded(t: Tables, t': Tables, op: string) {
    && t.document.Some? && op !in t.intents && op in t'.intents
    && t' == t.(intents := t.intents[op := t'.intents[op]])
    && SoundIntent(t.document.value, t.versions, op, t'.intents[op])
    && !t'.intents[op].receipt.outcome.Committed?
    && (IsPending(t', op) ==> forall o :: !IsPending(t, o))
  }

  lemma BeginCommitKeeps(t: Tables, r: RootStore, c: Candidate, digest: Digest)
    requires TablesInv(t) && RootsInv(t, r)
    requires t.document.Some? && ValidCandidate(c) && digest == CommitDigest(t.document.value.identity, c)
    ensures var (t', answer) := BeginCommit(t, c, digest);
            && TablesInv(t') && RootsInv(t', r) && Grows(t, r, t', r)
            && (answer.Success? ==> c.operationId in t'.intents && t'.intents[c.operationId].receipt == answer.value)
            && (answer.Failure? ==> answer.error in {PayloadConflict, UniqueViolation})
  {
    BeginCommitAnswers(t, c, digest);
    var (t', answer) := BeginCommit(t, c, digest);
    if t' != t {
      RecordingKeepsTables(t, t', c.operationId);
      RecordingKeepsRoots(t, r, t', c.operationId);
    }
  }

  lemma BeginCommitAnswers(t: Tables, c: Candidate, digest: Digest)
    requires TablesInv(t)
    requires t.document.Some? && ValidCandidate(c) && digest == CommitDigest(t.document.value.identity, c)
    ensures var (t', answer) := BeginCommit(t, c, digest);
            && (t' == t || Recorded(t, t', c.operationId))
            && (answer.Success? ==> c.operationId in t'.intents && t'.intents[c.operationId].receipt == answer.value)
            && (answer.Failure? ==> answer.error in {PayloadConflict, UniqueViolation})
  {
  }

  lemma RecordingKeepsTables(t: Tables, t': Tables, op: string)
    requires TablesInv(t) && Recorded(t, t', op)
    ensures TablesInv(t')
  {
    assert forall o, v :: CommittedAs(t', o, v) == CommittedAs(t, o, v);
    assert forall o :: o != op ==> IsPending(t', o) == IsPending(t, o);
    forall v | 2 <= v <= t'.document.value.headVersion ensures Published(t', v) {
      assert Published(t, v);
      var o :| CommittedAs(t, o, v);
      assert CommittedAs(t', o, v);
    }
  }

  lemma RecordingKeepsRoots(t: Tables, r: RootStore, t': Tables, op: string)
    requires RootsInv(t, r) && Recorded(t, t', op)
    ensures RootsInv(t', r)
  {
    forall id | id in r.applied ensures Earned(t', id, r.applied[id]) {
      assert Earned(t, id, r.applied[id]);
    }
    forall h ensures Refs(r, h) == Carrying(t'.versions, h) + Outstanding(t', r, h) {
      NewIntentIsNotRetained(t, r, t', op, h);
    }
  }

  lemma NewIntentIsNotRetained(t: Tables, r: RootStore, t': Tables, op: string, h: string)
    requires RootsInv(t, r) && op !in t.intents && op in t'.intents
    requires t'.intents[op].requestDigest.CommitDigest? && t'.intents[op].requestDigest.candidate.operationId == op
    requires t' == t.(intents := t.intents[op := t'.intents[op]])
    ensures CommitUnfinalised(t', r, h) == CommitUnfinalised(t, r, h)
  {
    var id := CommitRoot(t'.intents[op].requestDigest);
    assert forall o :: o in t.intents ==> RetainedPending(t', r, o) == RetainedPending(t, r, o);
  }

  /** `t'` is `t` after its pending commit `op` became the next version. */
  ghost predicate PublishedNext(t: Tables, t': Tables, op: string) {
    && t.document.Some? && IsPending(t, op) && op in t'.intents
    && var version := t.document.value.headVersion + 1;
       && version !in t.versions && version in t'.versions && t'.versions[version].stateHash == t.intents[op].stateHash
       && t' == Tables(Some(t.document.value.(headVersion := version)), t.versions[version := t'.versions[version]],
                       t.creation, t.intents[op := t'.intents[op]])
       && t'.intents[op] == t.intents[op].(receipt := t.intents[op].receipt.(outcome := Committed(version)))
  }

  lemma CommitRetainedKeeps(t: Tables, r: RootStore, op: string, at: int)
    requires TablesInv(t) && RootsInv(t, r)
    requires op in t.intents && !t.intents[op].receipt.outcome.Rejected?
    requires CommitRoot(t.intents[op].requestDigest) in r.applied
    ensures var (t', answer) := CommitRetained(t, op, at);
            && TablesInv(t') && RootsInv(t', r) && Grows(t, r, t', r)
            && (answer.Success? ==> Settled(t', op, Known(answer.value)))
            && (answer.Failure? ==> answer.error == InvalidArgument)
  {
    CommitRetainedAnswers(t, op, at);
    var t' := CommitRetained(t, op, at).0;
    if t' != t {
      PublishingKeepsTables(t, t', op);
      PublishingKeepsRoots(t, r, t', op);
      PublishingGrows(t, r, t', op);
    }
  }

  lemma PublishingGrows(t: Tables, r: RootStore, t': Tables, op: string)
    requires PublishedNext(t, t', op)
    ensures Grows(t, r, t', r)
  {
  }

  lemma CommitRetainedAnswers(t: Tables, op: string, at: int)
    requires TablesInv(t) && op in t.intents && !t.intents[op].receipt.outcome.Rejected?
    ensures var (t', answer) := CommitRetained(t, op, at);
            && (t' == t || PublishedNext(t, t', op))
            && (answer.Success? ==> Settled(t', op, Known(answer.value)))
            && (answer.Failure? ==> answer.error == InvalidArgument)
  {
  }

  lemma PublishingKeepsTables(t: Tables, t': Tables, op: string)
    requires TablesInv(t) && PublishedNext(t, t', op)
    ensures TablesInv(t') && forall o :: !IsPending(t', o)
  {
    var version := t.document.value.headVersion + 1;
    assert SoundIntent(t.document.value, t.versions, op, t.intents[op]);
    forall o, v ensures CommittedAs(t', o, v) == if o == op then v == version else CommittedAs(t, o, v) {}
    forall o, v | CommittedAs(t, o, v) ensures v < version {
      assert SoundIntent(t.document.value, t.versions, o, t.intents[o]);
    }
    forall v | 2 <= v <= version ensures Published(t', v) {
      if v < version {
        assert Published(t, v);
        var o :| CommittedAs(t, o, v);
        assert CommittedAs(t', o, v);
      } else {
        assert CommittedAs(t', op, v);
      }
    }
    forall o ensures !IsPending(t', o) {
      assert IsPending(t', o) ==> IsPending(t, o) && o != op;
    }
    forall o | o in t'.intents ensures SoundIntent(t'.document.value, t'.versions, o, t'.intents[o]) {
      if o != op {
        assert SoundIntent(t.document.value, t.versions, o, t.intents[o]);
        assert !IsPending(t', o);
      }
    }
  }

  lemma PublishingKeepsRoots(t: Tables, r: RootStore, t': Tables, op: string)
    requires TablesInv(t) && RootsInv(t, r) && PublishedNext(t, t', op) && RetainedPending(t, r, op)
    ensures RootsInv(t', r)
  {
    PublishingKeepsTables(t, t', op);
    forall id | id in r.applied ensures Earned(t', id, r.applied[id]) {
      assert Earned(t, id, r.applied[id]);
    }
    forall h ensures Refs(r, h) == Carrying(t'.versions, h) + Outstanding(t', r, h) {
      PublishingMovesOneReference(t, r, t', op, h);
    }
  }

  lemma PublishingMovesOneReference(t: Tables, r: RootStore, t': Tables, op: string, h: string)
    requires TablesInv(t) && t.document.Some? && RetainedPending(t, r, op)
    requires PublishedNext(t, t', op) && forall o :: !IsPending(t', o)
    ensures Carrying(t'.versions, h) + Outstanding(t', r, h) == Carrying(t.versions, h) + Outstanding(t, r, h)
  {
    var version := t.document.value.headVersion + 1;
    AddingAVersion(t.versions, t'.versions, version, h);
    assert forall o :: IsPending(t, o) ==> o == op;
    assert CommitUnfinalised(t, r, h) <==> t.intents[op].stateHash == h;
  }

  // ---------------------------------------------------------------- retaining a root

  lemma RetainCreationKeeps(t: Tables, r: RootStore, creation: Creation)
    requires TablesInv(t) && RootsInv(t, r) && Agreed(t, creation)
    ensures var id := CreateRoot(creation.requestDigest);
            var (r', ok) := Retain(r, id, creation.stateHash);
            ok && id in r'.applied && RootsInv(t, r') && Grows(t, r, t, r')
  {
  }

  lemma RetainCommitKeeps(t: Tables, r: RootStore, p: PendingCommit)
    requires TablesInv(t) && RootsInv(t, r) && ClientInv(t, r, RetainingCommit(p, 0, Standalone))
    ensures var id := CommitRoot(p.receipt.requestDigest);
            var (r', ok) := Retain(r, id, p.candidate.stateHash);
            ok && id in r'.applied && RootsInv(t, r') && Grows(t, r, t, r')
  {
    var op := p.candidate.operationId;
    var id := CommitRoot(p.receipt.requestDigest);
    assert t.document.Some? && SoundIntent(t.document.value, t.versions, op, t.intents[op]);
    if id in r.applied {
      assert Earned(t, id, r.applied[id]);
    } else {
      var (r', ok) := Retain(r, id, p.candidate.stateHash);
      assert IsPending(t, op);
      assert forall o :: IsPending(t, o) ==> o == op;
      forall h ensures Refs(r', h) == Carrying(t.versions, h) + Outstanding(t, r', h) {
        assert !RetainedPending(t, r, op) && RetainedPending(t, r', op);
        assert !CommitUnfinalised(t, r, h);
        assert CommitUnfinalised(t, r', h) <==> h == t.intents[op].stateHash;
      }
    }
  }

  // ---------------------------------------------------------------- one step, and every run

  ghost predicate Kept(t: Tables, r: RootStore, t': Tables, r': RootStore, c': Client) {
    TablesInv(t') && RootsInv(t', r') && ClientInv(t', r', c') && Grows(t, r, t', r')
  }

  lemma CreationKeeps(t: Tables, r: RootStore, c: Client, captured: string)
    requires TablesInv(t) && RootsInv(t, r) && ClientInv(t, r, c)
    requires c.Creating? || c.RetainingCreation? || c.FinishingCreation?
    ensures var (t', r', c') := Advance(t, r, c, captured); Kept(t, r, t', r', c')
  {
    match c
    case Creating(identity, hash, at) => BeginCreateKeeps(t, r, identity, hash);
    case RetainingCreation(creation, at) => RetainCreationKeeps(t, r, creation);
    case FinishingCreation(creation, at) => CreateRetainedKeeps(t, r, creation, at);
  }

  lemma BeginningKeeps(t: Tables, r: RootStore, c: Client, captured: string)
    requires TablesInv(t) && RootsInv(t, r) && ClientInv(t, r, c) && c.Digested?
    ensures var (t', r', c') := Advance(t, r, c, captured); Kept(t, r, t', r', c')
  {
    BeginCommitKeeps(t, r, c.candidate, c.digest);
  }

  lemma RetentionKeeps(t: Tables, r: RootStore, c: Client, captured: string)
    requires TablesInv(t) && RootsInv(t, r) && ClientInv(t, r, c) && c.RetainingCommit?
    ensures var (t', r', c') := Advance(t, r, c, captured); Kept(t, r, t', r', c')
  {
    RetainCommitKeeps(t, r, c.pending);
  }

  lemma CommitKeeps(t: Tables, r: RootStore, c: Client, captured: string)
    requires TablesInv(t) && RootsInv(t, r) && ClientInv(t, r, c) && c.FinishingCommit?
    ensures var (t', r', c') := Advance(t, r, c, captured); Kept(t, r, t', r', c')
  {
    CommitRetainedKeeps(t, r, c.operationId, c.at);
  }

  lemma AdvanceKeeps(t: Tables, r: RootStore, c: Client, captured: string)
    requires TablesInv(t) && RootsInv(t, r) && ClientInv(t, r, c)
    ensures var (t', r', c') := Advance(t, r, c, captured); Kept(t, r, t', r', c')
  {
    if c.Creating? || c.RetainingCreation? || c.FinishingCreation? {
      CreationKeeps(t, r, c, captured);
    } else if c.Digested? {
      BeginningKeeps(t, r, c, captured);
    } else if c.RetainingCommit? {
      RetentionKeeps(t, r, c, captured);
    } else if c.FinishingCommit? {
      CommitKeeps(t, r, c, captured);
    } else {
      ReadsKeep(t, r, c, captured);
    }
  }

  /** The calls that only read. */
  lemma ReadsKeep(t: Tables, r: RootStore, c: Client, captured: string)
    requires TablesInv(t) && RootsInv(t, r) && ClientInv(t, r, c)
    requires c.CheckingStatus? || c.Capturing? || c.Committing? || c.Resuming? || c.ReadingStatus? || Finished(c)
    ensures var (t', r', c') := Advance(t, r, c, captured);
            t' == t && r' == r && ClientInv(t, r, c')
  {
    forall op | op in t.intents ensures ValidOperationId(op) && ValidStoredReceipt(t.intents[op].receipt) {
      assert t.document.Some? && SoundIntent(t.document.value, t.versions, op, t.intents[op]);
    }
  }

  lemma StepKeeps(s: System, a: Action)
    requires Inv(s)
    ensures Inv(Step(s, a)) && Grows(s.tables, s.roots, Step(s, a).tables, Step(s, a).roots)
  {
    var s' := Step(s, a);
    if a.Await? && a.id in s.clients {
      AdvanceKeeps(s.tables, s.roots, s.clients[a.id], a.captured);
      forall id | id in s'.clients ensures ClientInv(s'.tables, s'.roots, s'.clients[id]) {
        if id != a.id {
          ClientInvIsStable(s.tables, s.roots, s'.tables, s'.roots, s.clients[id]);
        }
      }
    }
  }

  lemma GrowsTransitively(t: Tables, r: RootStore, t1: Tables, r1: RootStore, t2: Tables, r2: RootStore)
    requires Grows(t, r, t1, r1) && Grows(t1, r1, t2, r2)
    ensures Grows(t, r, t2, r2)
  {
  }

  lemma {:induction false} RunKeeps(s: System, actions: seq<Action>)
    requires Inv(s)
    ensures Inv(Run(s, actions)) && Grows(s.tables, s.roots, Run(s, actions).tables, Run(s, actions).roots)
  {
    if actions != [] {
      var before := Run(s, actions[..|actions| - 1]);
      RunKeeps(s, actions[..|actions| - 1]);
      StepKeeps(before, actions[|actions| - 1]);
      var after := Run(s, actions);
      GrowsTransitively(s.tables, s.roots, before.tables, before.roots, after.tables, after.roots);
    }
  }

  lemma InitHolds()
    ensures Inv(Init)
  {
  }

  // ---------------------------------------------------------------- what holds after any run

  /** The creation or commit that a root request belongs to has become a version. */
  predicate Finalised(t: Tables, id: RequestId) {
    match id
    case CreateRoot(_) => t.document.Some?
    case CommitRoot(g) =>
      g.CommitDigest? && g.candidate.operationId in t.intents
      && t.intents[g.candidate.operationId].receipt.outcome.Committed?
  }

  /** References and versions balance, hash by hash; nothing visible is unretained and nothing rejected is retained. */
  lemma {:induction false} RootConservation(actions: seq<Action>)
    ensures var s := Run(Init, actions); var t := s.tables; var r := s.roots;
      && (forall h :: Refs(r, h) == Carrying(t.versions, h) + Outstanding(t, r, h))
      && (forall v :: v in t.versions ==> Refs(r, t.versions[v].stateHash) >= 1)
      && (forall op :: op in t.intents && t.intents[op].receipt.outcome.Rejected? ==>
            CommitRoot(t.intents[op].requestDigest) !in r.applied)
      && (forall id, id' :: id in r.applied && id' in r.applied && !Finalised(t, id) && !Finalised(t, id') ==> id == id')
  {
    InitHolds();
    RunKeeps(Init, actions);
    var s := Run(Init, actions);
    forall v | v in s.tables.versions ensures Refs(s.roots, s.tables.versions[v].stateHash) >= 1 {
      PresentIsCarried(s.tables.versions, v);
    }
    forall op | op in s.tables.intents && s.tables.intents[op].receipt.outcome.Rejected?
      ensures CommitRoot(s.tables.intents[op].requestDigest) !in s.roots.applied
    {
      assert SoundIntent(s.tables.document.value, s.tables.versions, op, s.tables.intents[op]);
    }
    forall id, id' | id in s.roots.applied && id' in s.roots.applied && !Finalised(s.tables, id) && !Finalised(s.tables, id')
      ensures id == id'
    {
      UnfinalisedIsUnique(s.tables, s.roots, id, id');
    }
  }

  lemma UnfinalisedIsUnique(t: Tables, r: RootStore, id: RequestId, id': RequestId)
    requires TablesInv(t) && RootsInv(t, r) && id in r.applied && id' in r.applied
    requires !Finalised(t, id) && !Finalised(t, id')
    ensures id == id'
  {
    assert Earned(t, id, r.applied[id]) && Earned(t, id', r.applied[id']);
    if id.CommitRoot? && id'.CommitRoot? {
      assert IsPending(t, id.digest.candidate.operationId) && IsPending(t, id'.digest.candidate.operationId);
    }
  }

  /** Versions are numbered without gaps; each but the first is one committed intent, and conversely. */
  lemma {:induction false} VersionsMatchIntents(actions: seq<Action>)
    ensures var t := Run(Init, actions).tables;
      match t.document
      case None => t.versions == map[] && t.intents == map[]
      case Some(d) =>
        && SafeInteger(d.headVersion)
        && (forall v :: v in t.versions <==> 1 <= v <= d.headVersion)
        && (forall v :: 2 <= v <= d.headVersion ==> Published(t, v))
        && (forall op, op', v :: CommittedAs(t, op, v) && CommittedAs(t, op', v) ==> op == op')
        && (forall op, v :: CommittedAs(t, op, v) ==>
              2 <= v <= d.headVersion && v == t.intents[op].baseVersion + 1 && t.versions[v].stateHash == t.intents[op].stateHash)
        && (forall op, op' :: IsPending(t, op) && IsPending(t, op') ==> op == op')
        && (forall op :: IsPending(t, op) ==> t.intents[op].baseVersion == d.headVersion)
  {
    InitHolds();
    RunKeeps(Init, actions);
    var t := Run(Init, actions).tables;
    forall op | op in t.intents ensures t.document.Some? && SoundIntent(t.document.value, t.versions, op, t.intents[op]) {}
  }

  /** A commit of operation `op`, started here or by an editor, that returned. */
  predicate CommitReturned(s: System, id: nat, op: string) {
    id in s.clients && s.clients[id].Returned? && s.clients[id].origin != Standalone && s.clients[id].operationId == op
  }

  /** Any call for operation `op`, a bare resume too, that returned a terminal receipt. */
  predicate ReturnedTerminal(s: System, id: nat, op: string) {
    id in s.clients && s.clients[id].Returned? && s.clients[id].operationId == op
    && s.clients[id].status.Known? && s.clients[id].status.receipt.Terminal()
  }

  /**
   * Every commit that returns does so with a terminal receipt, all calls of one operation that ever return a
   * terminal receipt, bare resumes among them, return the same one, and the operation's state hash and
   * terminal receipt stay what they were.
   */
  lemma {:induction false} Agreement(actions: seq<Action>, more: seq<Action>, op: string, id: nat, id': nat)
    ensures var s := Run(Init, actions); var s' := Run(s, more);
      && (CommitReturned(s, id, op) ==> ReturnedTerminal(s, id, op))
      && (ReturnedTerminal(s, id, op) && ReturnedTerminal(s', id', op) ==> s.clients[id].status == s'.clients[id'].status)
      && (op in s.tables.intents && s.tables.intents[op].receipt.Terminal() ==>
            op in s'.tables.intents && s'.tables.intents[op] == s.tables.intents[op])
      && (op in s.tables.intents ==>
            op in s'.tables.intents && s'.tables.intents[op].stateHash == s.tables.intents[op].stateHash)
  {
    InitHolds();
    RunKeeps(Init, actions);
    var s := Run(Init, actions);
    RunKeeps(s, more);
    var s' := Run(s, more);
    ReturnsAreSettled(s, id, op);
    ReturnsAreSettled(s', id', op);
  }

  lemma ReturnsAreSettled(s: System, id: nat, op: string)
    requires Inv(s)
    ensures CommitReturned(s, id, op) ==> ReturnedTerminal(s, id, op)
    ensures ReturnedTerminal(s, id, op) ==> Settled(s.tables, op, s.clients[id].status)
  {
  }

  /** Creators that succeed report the same version 1. */
  lemma {:induction false} CreatorsAgree(actions: seq<Action>, more: seq<Action>, id: nat, id': nat)
    ensures var s := Run(Init, actions); var s' := Run(s, more);
      id in s.clients && s.clients[id].Made? && id' in s'.clients && s'.clients[id'].Made? ==>
        s.clients[id] == s'.clients[id']
  {
    InitHolds();
    RunKeeps(Init, actions);
    var s := Run(Init, actions);
    RunKeeps(s, more);
    var s' := Run(s, more);
    if id in s.clients && s.clients[id].Made? && id' in s'.clients && s'.clients[id'].Made? {
      assert ClientInv(s.tables, s.roots, s.clients[id]);
      assert ClientInv(s'.tables, s'.roots, s'.clients[id']);
    }
  }

  /** The guards the code keeps for impossible situations are never reached, by any client or any direct call. */
  lemma {:induction false} ImpossibleErrorsNeverHappen(actions: seq<Action>, id: nat, op: string, at: int)
    ensures var s := Run(Init, actions);
      && CommitRetained(s.tables, op, at).1 != Failure(PendingHeadChanged)
      && CommitStatus(s.tables, op) != Failure(InvalidStoredReceipt)
      && (id in s.clients ==>
            && !s.clients[id].Disappeared? && !s.clients[id].RetentionFailed?
            && s.clients[id] !in {Threw(PendingHeadChanged), Threw(InvalidStoredReceipt), Threw(OperationNotFound), Threw(MissingRow)})
  {
    InitHolds();
    RunKeeps(Init, actions);
    var s := Run(Init, actions);
    if id in s.clients {
      assert ClientInv(s.tables, s.roots, s.clients[id]);
    }
  }

  /** A new client starts where it enters, an awaited call is one of its calls on the shared tables, and a crash takes a client away. */
  lemma StepsAreCalls(s: System, id: nat, c: Client, captured: string)
    ensures Step(s, Start(id, c)) == if id !in s.clients && Entry(c) then System(s.tables, s.roots, s.clients[id := c]) else s
    ensures id in s.clients ==>
      var s' := Step(s, Await(id, captured));
      && (s'.tables, s'.roots, s'.clients[id]) == Advance(s.tables, s.roots, s.clients[id], captured)
      && s'.clients.Keys == s.clients.Keys && forall other :: other in s.clients && other != id ==> s'.clients[other] == s.clients[other]
    ensures id !in Step(s, Crash(id)).clients && Step(s, Crash(id)).tables == s.tables && Step(s, Crash(id)).roots == s.roots
  {
  }

  // ---------------------------------------------------------------- a client left alone

  /** Up to `n` awaited calls of one client with no other client in between. */
  function Solo(t: Tables, r: RootStore, c: Client, captured: string, n: nat): (Tables, RootStore, Client)
    decreases n
  {
    if n == 0 || Finished(c) then (t, r, c)
    else
      var (t', r', c') := Advance(t, r, c, captured);
      Solo(t', r', c', captured, n - 1)
  }

  /** Whoever resumes a pending commit, in whatever state the others left it, finishes it as the next version. */
  lemma {:induction false} ResumingFinishes(actions: seq<Action>, op: string, at: int)
    requires IsPending(Run(Init, actions).tables, op) && ValidTimestamp(at)
    ensures var s := Run(Init, actions);
            var (t, r, c) := Solo(s.tables, s.roots, Resuming(op, at, Standalone), "", 3);
            FinishedAs(s.tables, op, at, t, r, c)
  {
    InitHolds();
    RunKeeps(Init, actions);
    PendingFinishes(Run(Init, actions).tables, Run(Init, actions).roots, op, at, Standalone, "");
  }

  /** `op`, pending in `t`, has been published at time `at` as the next version in `t'`, with its root counted and nothing else touched. */
  ghost predicate FinishedAs(t: Tables, op: string, at: int, t': Tables, r': RootStore, c: Client) {
    && t.document.Some? && op in t.intents
    && PublishesNext(t, t.intents[op].baseVersion, t.intents[op].stateHash, op, at, t', r', c)
    && t'.intents.Keys == t.intents.Keys
  }

  /** The call returned the next version as committed; that version has this hash and time, and every root is counted. */
  ghost predicate PublishesNext(t: Tables, base: int, hash: string, op: string, at: int, t': Tables, r': RootStore, c: Client) {
    && t.document.Some?
    && var next := t.document.value.headVersion + 1;
       && c.Returned? && c.operationId == op && c.status.Known? && c.status.receipt.operationId == op
       && c.status.receipt.baseVersion == base == next - 1 && c.status.receipt.outcome == Committed(next)
       && t'.document == Some(t.document.value.(headVersion := next))
       && t'.versions == t.versions[next := Version(hash, at)]
       && op in t'.intents && t'.intents[op].receipt == c.status.receipt && t'.intents[op].stateHash == hash
       && (forall o :: o in t.intents && o != op ==> o in t'.intents && t'.intents[o] == t.intents[o])
       && forall h :: Refs(r', h) == Carrying(t'.versions, h)
  }

  lemma PendingFinishes(t: Tables, r: RootStore, op: string, at: int, origin: Origin, captured: string)
    requires TablesInv(t) && RootsInv(t, r) && IsPending(t, op) && ValidTimestamp(at)
    ensures var (t', r', c) := Solo(t, r, Resuming(op, at, origin), captured, 3);
            FinishedAs(t, op, at, t', r', c)
  {
    assert SoundIntent(t.document.value, t.versions, op, t.intents[op]);
    var p := FindPending(t, op).value.value;
    RetainCommitKeeps(t, r, p);
    var r' := Retain(r, CommitRoot(p.receipt.requestDigest), p.candidate.stateHash).0;
    PublishPending(t, r', op, at, origin);
    ResumeCalls(t, r, op, at, p, origin, captured);
  }

  /** The three awaited calls of a resume that finds its operation pending. */
  lemma ResumeCalls(t: Tables, r: RootStore, op: string, at: int, p: PendingCommit, origin: Origin, captured: string)
    requires FindPending(t, op) == Success(Some(p)) && p.candidate.operationId == op
    requires Retain(r, CommitRoot(p.receipt.requestDigest), p.candidate.stateHash).1
    requires CommitRetained(t, op, at).1.Success?
    ensures var (t', answer) := CommitRetained(t, op, at);
            Solo(t, r, Resuming(op, at, origin), captured, 3)
            == (t', Retain(r, CommitRoot(p.receipt.requestDigest), p.candidate.stateHash).0,
                Returned(op, origin, Known(answer.value)))
  {
  }

  lemma PublishPending(t: Tables, r: RootStore, op: string, at: int, origin: Origin)
    requires TablesInv(t) && RootsInv(t, r) && RetainedPending(t, r, op) && ValidTimestamp(at)
    ensures var (t', answer) := CommitRetained(t, op, at);
            answer.Success? && FinishedAs(t, op, at, t', r, Returned(op, origin, Known(answer.value)))
  {
    NextIsFree(t, op, at);
    PublishedBalances(t, r, CommitRetained(t, op, at).0, op);
  }

  lemma PublishedBalances(t: Tables, r: RootStore, t': Tables, op: string)
    requires TablesInv(t) && RootsInv(t, r) && RetainedPending(t, r, op) && PublishedNext(t, t', op)
    ensures forall h :: Refs(r, h) == Carrying(t'.versions, h)
  {
    PublishingKeepsTables(t, t', op);
    PublishingKeepsRoots(t, r, t', op);
    forall h ensures Outstanding(t', r, h) == 0 {}
  }

  /** Finalising what is pending publishes it. */
  lemma NextIsFree(t: Tables, op: string, at: int)
    requires TablesInv(t) && IsPending(t, op) && ValidTimestamp(at)
    ensures var (t', answer) := CommitRetained(t, op, at);
      && answer.Success? && PublishedNext(t, t', op)
      && t'.versions[t.document.value.headVersion + 1].createdAt == at
      && answer.value == t'.intents[op].receipt
      && t.intents[op].receipt.operationId == op && t.intents[op].receipt.baseVersion == t.document.value.headVersion == t.intents[op].baseVersion
  {
    assert SoundIntent(t.document.value, t.versions, op, t.intents[op]);
  }

  // ---------------------------------------------------------------- how a commit, an editor's commit, a resume and a creation end

  /** The tables and the client after the two calls of a commit's `beginCommit`. */
  function Begun(t: Tables, c: Candidate, at: int): (Tables, Client)
    requires t.document.Some?
  {
    var (t', _, c') := Advance(t, RootStore(map[], map[]), Digested(c, CommitDigest(t.document.value.identity, c), at), "");
    (t', c')
  }

  /** The first two calls of a commit, of an existing document with a valid candidate. */
  lemma CommitBegins(t: Tables, r: RootStore, c: Candidate, at: int, captured: string, n: nat)
    requires t.document.Some? && ValidCandidate(c)
    ensures Solo(t, r, Committing(c, at), captured, n + 2) == Solo(Begun(t, c, at).0, r, Begun(t, c, at).1, captured, n)
  {
  }

  ghost predicate NonePending(t: Tables) {
    forall o :: !IsPending(t, o)
  }

  lemma NobodyElse(t: Tables, op: string)
    requires op !in t.intents
    ensures NonePending(t) <==> !OtherPending(t, op)
  {
    if !NonePending(t) {
      var o :| IsPending(t, o);
      assert o in t.intents && o != op && t.intents[o].receipt.outcome.Pending?;
    }
    if OtherPending(t, op) {
      var o :| o in t.intents && o != op && t.intents[o].receipt.outcome.Pending?;
      assert IsPending(t, o);
    }
  }

  /** What `beginCommit` answers a valid candidate of an existing document. */
  lemma CommitRecords(t: Tables, r: RootStore, c: Candidate)
    requires TablesInv(t) && RootsInv(t, r) && t.document.Some? && ValidCandidate(c)
    ensures var (t', answer) := BeginCommit(t, c, CommitDigest(t.document.value.identity, c));
      TablesInv(t') && RootsInv(t', r) && CommitRecorded(t, c, t', answer)
  {
    BeginCommitKeeps(t, r, c, CommitDigest(t.document.value.identity, c));
    if c.operationId in t.intents {
      KnownCommit(t, c);
    } else {
      NewCommit(t, c);
    }
  }

  ghost predicate CommitRecorded(t: Tables, c: Candidate, t': Tables, answer: Answer<Receipt>)
    requires t.document.Some?
  {
    var op, head := c.operationId, t.document.value.headVersion;
    if op in t.intents then
      && t' == t
      && answer == if OtherPayload(t, c) then Failure(PayloadConflict) else Success(t.intents[op].receipt)
    else if c.baseVersion == head && !NonePending(t) then t' == t && answer == Failure(UniqueViolation)
    else
      && RecordedAlone(t, t', c) && answer == Success(t'.intents[op].receipt)
      && answer.value.operationId == op && answer.value.baseVersion == c.baseVersion
      && answer.value.outcome == if c.baseVersion == head then Pending else Rejected(head)
  }

  lemma KnownCommit(t: Tables, c: Candidate)
    requires TablesInv(t) && t.document.Some? && ValidCandidate(c) && c.operationId in t.intents
    ensures var (t', answer) := BeginCommit(t, c, CommitDigest(t.document.value.identity, c)); CommitRecorded(t, c, t', answer)
  {
    assert SoundIntent(t.document.value, t.versions, c.operationId, t.intents[c.operationId]);
  }

  lemma NewCommit(t: Tables, c: Candidate)
    requires t.document.Some? && c.operationId !in t.intents
    ensures var (t', answer) := BeginCommit(t, c, CommitDigest(t.document.value.identity, c)); CommitRecorded(t, c, t', answer)
  {
    NobodyElse(t, c.operationId);
  }

  predicate OtherPayload(t: Tables, c: Candidate)
    requires c.operationId in t.intents
  {
    t.intents[c.operationId].baseVersion != c.baseVersion || t.intents[c.operationId].stateHash != c.stateHash
  }

  /** Only the intent of this candidate was added. */
  predicate RecordedAlone(t: Tables, t': Tables, c: Candidate) {
    && t'.document == t.document && t'.versions == t.versions && t'.creation == t.creation
    && t'.intents.Keys == t.intents.Keys + {c.operationId}
    && t'.intents[c.operationId].stateHash == c.stateHash && t'.intents[c.operationId].baseVersion == c.baseVersion
    && forall o :: o in t.intents && o != c.operationId ==> t'.intents[o] == t.intents[o]
  }

  /**
   * How a commit of an existing document ends if nobody interferes, in whatever state the others left it. On
   * the head with nothing pending it becomes the next version; off the head it is rejected and recorded as
   * that; repeated, it answers what is stored or finishes what is pending. It throws exactly if its operation
   * is known with another payload, or it is on the head beside another pending commit, and then changes nothing.
   */
  ghost predicate CommitEnds(t: Tables, r: RootStore, c: Candidate, at: int, t': Tables, r': RootStore, end: Client)
    requires t.document.Some?
  {
    var op, head := c.operationId, t.document.value.headVersion;
    && (end == Threw(PayloadConflict) <==> op in t.intents && OtherPayload(t, c))
    && (end == Threw(UniqueViolation) <==> op !in t.intents && c.baseVersion == head && !NonePending(t))
    && (end.Threw? ==> t' == t && r' == r && (end.error.PayloadConflict? || end.error.UniqueViolation?))
    && (!end.Threw? ==> end.Returned?)
    && (op !in t.intents && c.baseVersion == head && NonePending(t) ==> PublishesNext(t, c.baseVersion, c.stateHash, op, at, t', r', end))
    && (op !in t.intents && c.baseVersion != head ==>
          && RecordedAlone(t, t', c) && r' == r && end.status == Known(t'.intents[op].receipt)
          && end.status.receipt.outcome == Rejected(head))
    && (op in t.intents && !OtherPayload(t, c) ==>
          if IsPending(t, op) then FinishedAs(t, op, at, t', r', end)
          else t' == t && r' == r && end.status == Known(t.intents[op].receipt))
  }

  /** A commit that throws, or whose operation has its outcome once it is recorded. */
  lemma SettledCommitEnds(t: Tables, r: RootStore, c: Candidate, at: int)
    requires TablesInv(t) && RootsInv(t, r) && t.document.Some? && ValidCandidate(c)
    requires !Begun(t, c, at).1.Resuming?
    ensures var (t', end) := Begun(t, c, at); CommitEnds(t, r, c, at, t', r, end) && Finished(end)
  {
    CommitRecords(t, r, c);
  }

  /** A commit that is recorded as pending, or was, and is then finished. */
  lemma PendingCommitBegins(t: Tables, r: RootStore, c: Candidate, at: int)
    requires TablesInv(t) && RootsInv(t, r) && t.document.Some? && ValidCandidate(c)
    requires Begun(t, c, at).1.Resuming?
    ensures var (t', c') := Begun(t, c, at);
      c' == Resuming(c.operationId, at, FromCommit) && TablesInv(t') && RootsInv(t', r) && IsPending(t', c.operationId)
  {
    CommitRecords(t, r, c);
  }

  lemma PendingCommitEnds(t: Tables, r: RootStore, c: Candidate, at: int, t': Tables, r': RootStore, end: Client)
    requires TablesInv(t) && RootsInv(t, r) && t.document.Some? && ValidCandidate(c)
    requires Begun(t, c, at).1.Resuming? && FinishedAs(Begun(t, c, at).0, c.operationId, at, t', r', end)
    ensures CommitEnds(t, r, c, at, t', r', end)
  {
    CommitRecords(t, r, c);
    var t1 := Begun(t, c, at).0;
    if c.operationId !in t.intents {
      assert RecordedAlone(t, t1, c) && t1.document == t.document && t1.versions == t.versions;
      FinishedAnew(t, t1, c, at, t', r', end);
    }
  }

  lemma FinishedAnew(t: Tables, t1: Tables, c: Candidate, at: int, t': Tables, r': RootStore, end: Client)
    requires t.document.Some? && c.operationId !in t.intents && RecordedAlone(t, t1, c)
    requires FinishedAs(t1, c.operationId, at, t', r', end)
    ensures PublishesNext(t, c.baseVersion, c.stateHash, c.operationId, at, t', r', end)
  {
  }

  lemma PendingCommitIsFinished(t: Tables, r: RootStore, c: Candidate, at: int, captured: string)
    requires TablesInv(t) && RootsInv(t, r) && t.document.Some? && ValidCandidate(c) && ValidTimestamp(at)
    requires Begun(t, c, at).1.Resuming?
    ensures var (t', r', end) := Solo(Begun(t, c, at).0, r, Begun(t, c, at).1, captured, 3); CommitEnds(t, r, c, at, t', r', end)
  {
    PendingCommitBegins(t, r, c, at);
    PendingFinishes(Begun(t, c, at).0, r, c.operationId, at, FromCommit, captured);
    var (t', r', end) := Solo(Begun(t, c, at).0, r, Begun(t, c, at).1, captured, 3);
    PendingCommitEnds(t, r, c, at, t', r', end);
  }

  lemma AloneCommitEnds(t: Tables, r: RootStore, c: Candidate, at: int, captured: string)
    requires TablesInv(t) && RootsInv(t, r) && t.document.Some? && ValidCandidate(c) && ValidTimestamp(at)
    ensures var (t', r', end) := Solo(t, r, Committing(c, at), captured, 5); CommitEnds(t, r, c, at, t', r', end)
  {
    CommitBegins(t, r, c, at, captured, 3);
    if Begun(t, c, at).1.Resuming? {
      PendingCommitIsFinished(t, r, c, at, captured);
    } else {
      SettledCommitEnds(t, r, c, at);
    }
  }

  lemma {:induction false} CommittingEnds(actions: seq<Action>, c: Candidate, at: int)
    requires Run(Init, actions).tables.document.Some? && ValidCandidate(c) && ValidTimestamp(at)
    ensures var s := Run(Init, actions);
            var (t, r, end) := Solo(s.tables, s.roots, Committing(c, at), "", 5);
            CommitEnds(s.tables, s.roots, c, at, t, r, end)
  {
    InitHolds();
    RunKeeps(Init, actions);
    AloneCommitEnds(Run(Init, actions).tables, Run(Init, actions).roots, c, at, "");
  }

  /** Calls with arguments that are refused, and commits of no document, change nothing. */
  lemma RefusedArguments(t: Tables, r: RootStore, c: Candidate, identity: Identity, hash: string, op: string, at: int)
    ensures !ValidCandidate(c) ==> Solo(t, r, Committing(c, at), "", 5) == (t, r, Threw(InvalidArgument))
    ensures ValidCandidate(c) && t.document.None? ==> Solo(t, r, Committing(c, at), "", 5) == (t, r, Threw(DocumentNotFound))
    ensures !ValidIdentity(identity) || !ValidHash(hash) ==> Solo(t, r, Creating(identity, hash, at), "", 3) == (t, r, Threw(InvalidArgument))
    ensures !ValidOperationId(op) ==> Solo(t, r, Resuming(op, at, Standalone), "", 3) == (t, r, Threw(InvalidArgument))
  {
  }

  /** An editor's commit ends as a commit of what was captured if its operation is new, and else as what that became, captured or not. */
  lemma {:induction false} EditorCommitEnds(actions: seq<Action>, op: string, base: int, at: int, captured: string)
    requires Run(Init, actions).tables.document.Some? && ValidCandidate(Candidate(op, base, captured)) && ValidTimestamp(at)
    ensures var s := Run(Init, actions);
            var (t, r, end) := Solo(s.tables, s.roots, CheckingStatus(op, base, at), captured, 7);
            if op !in s.tables.intents then CommitEnds(s.tables, s.roots, Candidate(op, base, captured), at, t, r, end)
            else if IsPending(s.tables, op) then FinishedAs(s.tables, op, at, t, r, end)
            else t == s.tables && r == s.roots && end.Returned? && end.status == Known(s.tables.intents[op].receipt)
  {
    InitHolds();
    RunKeeps(Init, actions);
    var s := Run(Init, actions);
    var t, r := s.tables, s.roots;
    EditorChecks(t, r, op, base, at, captured);
    if op !in t.intents {
      AloneCommitEnds(t, r, Candidate(op, base, captured), at, captured);
    } else if IsPending(t, op) {
      PendingFinishes(t, r, op, at, FromEditor, captured);
      MoreCallsChangeNothing(t, r, Resuming(op, at, FromEditor), captured, 3, 6);
    }
  }

  /** What an editor's commit does after it has checked the status of its operation. */
  lemma EditorChecks(t: Tables, r: RootStore, op: string, base: int, at: int, captured: string)
    requires TablesInv(t) && t.document.Some? && ValidOperationId(op)
    ensures Solo(t, r, CheckingStatus(op, base, at), captured, 7)
            == if op !in t.intents then Solo(t, r, Committing(Candidate(op, base, captured), at), captured, 5)
               else if IsPending(t, op) then Solo(t, r, Resuming(op, at, FromEditor), captured, 6)
               else (t, r, Returned(op, FromEditor, Known(t.intents[op].receipt)))
  {
    assert op in t.intents ==> SoundIntent(t.document.value, t.versions, op, t.intents[op]);
  }

  lemma {:induction false} MoreCallsChangeNothing(t: Tables, r: RootStore, c: Client, captured: string, n: nat, m: nat)
    requires n <= m && Finished(Solo(t, r, c, captured, n).2)
    ensures Solo(t, r, c, captured, m) == Solo(t, r, c, captured, n)
    decreases n
  {
    if n > 0 && !Finished(c) {
      var (t', r', c') := Advance(t, r, c, captured);
      MoreCallsChangeNothing(t', r', c', captured, n - 1, m - 1);
    }
  }

  /** A resume of anything that is not pending reports what is known of it and changes nothing. */
  lemma {:induction false} ResumingReports(actions: seq<Action>, op: string, at: int)
    requires ValidOperationId(op) && !IsPending(Run(Init, actions).tables, op)
    ensures var s := Run(Init, actions);
            Solo(s.tables, s.roots, Resuming(op, at, Standalone), "", 3)
            == (s.tables, s.roots,
                Returned(op, Standalone, if op in s.tables.intents then Known(s.tables.intents[op].receipt) else Unknown(op)))
  {
    InitHolds();
    RunKeeps(Init, actions);
    var t := Run(Init, actions).tables;
    if op in t.intents {
      assert SoundIntent(t.document.value, t.versions, op, t.intents[op]);
    }
    AloneReport(t, Run(Init, actions).roots, op, at);
  }

  lemma AloneReport(t: Tables, r: RootStore, op: string, at: int)
    requires ValidOperationId(op) && !IsPending(t, op) && (op in t.intents ==> ValidStoredReceipt(t.intents[op].receipt))
    ensures Solo(t, r, Resuming(op, at, Standalone), "", 3)
            == (t, r, Returned(op, Standalone, if op in t.intents then Known(t.intents[op].receipt) else Unknown(op)))
  {
  }

  /** This creation is the one begun or finished here, or there is none yet. */
  predicate MayCreate(t: Tables, identity: Identity, hash: string) {
    if t.document.Some? then
      t.document.value.identity == identity && 1 in t.versions && t.versions[1].stateHash == hash && t.document.value.headVersion == 1
    else t.creation.Some? ==> t.creation.value.identity == identity && t.creation.value.stateHash == hash
  }

  /** How a creation ends if nobody interferes. */
  ghost predicate CreationEnds(t: Tables, r: RootStore, identity: Identity, hash: string, at: int, t': Tables, r': RootStore, end: Client) {
    && (end.Made? <==> MayCreate(t, identity, hash))
    && (!end.Made? ==> end == Threw(CreateConflict) && t' == t && (t.document.None? ==> r' == r))
    && (end.Made? ==>
          && t'.document == Some(Document(identity, 1)) && t'.creation.None? && t'.intents == t.intents
          && t'.versions == (if t.document.Some? then t.versions else map[1 := Version(hash, at)])
          && end.created == Created(identity, Head(1, hash, t'.versions[1].createdAt))
          && forall h :: Refs(r', h) == Carrying(t'.versions, h) + Outstanding(t', r', h))
  }

  lemma AloneCreationEnds(t: Tables, r: RootStore, identity: Identity, hash: string, at: int)
    requires TablesInv(t) && RootsInv(t, r) && ValidIdentity(identity) && ValidHash(hash) && ValidTimestamp(at)
    ensures var (t', r', end) := Solo(t, r, Creating(identity, hash, at), "", 3); CreationEnds(t, r, identity, hash, at, t', r', end)
  {
    var creation := Creation(identity, hash, CreationDigest(identity, hash));
    if BeginCreate(t, identity, hash).1.Success? {
      var s := CreationIsRetained(t, r, identity, hash, at);
      var (t1, r1) := s;
      CreationCalls(t1, r, creation, at);
      CreationFinishes(t, t1, r, r1, identity, hash, at);
    }
  }

  /** A creation that was accepted has its root retained, and finishing it keeps all roots counted. */
  lemma CreationIsRetained(t: Tables, r: RootStore, identity: Identity, hash: string, at: int) returns (s: (Tables, RootStore))
    requires TablesInv(t) && RootsInv(t, r) && BeginCreate(t, identity, hash).1.Success?
    ensures var creation := Creation(identity, hash, CreationDigest(identity, hash));
      && BeginCreate(t, identity, hash) == (s.0, Success(creation))
      && Retain(r, CreateRoot(creation.requestDigest), hash) == (s.1, true)
      && RootsInv(CreateRetained(s.0, identity, hash, at).0, s.1)
  {
    var creation := Creation(identity, hash, CreationDigest(identity, hash));
    BeginCreateKeeps(t, r, identity, hash);
    var t1 := BeginCreate(t, identity, hash).0;
    RetainCreationKeeps(t1, r, creation);
    var r1 := Retain(r, CreateRoot(creation.requestDigest), hash).0;
    CreateRetainedKeeps(t1, r1, creation, at);
    s := (t1, r1);
  }

  lemma CreationCalls(t: Tables, r: RootStore, creation: Creation, at: int)
    requires Retain(r, CreateRoot(creation.requestDigest), creation.stateHash).1
    ensures var (t', answer) := CreateRetained(t, creation.identity, creation.stateHash, at);
            Solo(t, r, RetainingCreation(creation, at), "", 2)
            == (t', Retain(r, CreateRoot(creation.requestDigest), creation.stateHash).0,
                if answer.Success? then Made(answer.value) else Threw(answer.error))
  {
  }

  lemma CreationFinishes(t: Tables, t1: Tables, r: RootStore, r1: RootStore, identity: Identity, hash: string, at: int)
    requires TablesInv(t) && ValidIdentity(identity) && ValidHash(hash) && ValidTimestamp(at)
    requires BeginCreate(t, identity, hash).0 == t1 && BeginCreate(t, identity, hash).1.Success?
    requires RootsInv(CreateRetained(t1, identity, hash, at).0, r1)
    ensures var (t', answer) := CreateRetained(t1, identity, hash, at);
      CreationEnds(t, r, identity, hash, at, t', r1, if answer.Success? then Made(answer.value) else Threw(answer.error))
  {
  }

  /**
   * A creation left alone succeeds if and only if nothing was created or begun but this very document, and no
   * commit followed. Then version 1 has its hash, its root is counted, and if it is new its time; a refusal changes nothing.
   */
  lemma {:induction false} CreatingEnds(actions: seq<Action>, identity: Identity, hash: string, at: int)
    requires ValidIdentity(identity) && ValidHash(hash) && ValidTimestamp(at)
    ensures var s := Run(Init, actions);
            var (t, r, end) := Solo(s.tables, s.roots, Creating(identity, hash, at), "", 3);
            CreationEnds(s.tables, s.roots, identity, hash, at, t, r, end)
  {
    InitHolds();
    RunKeeps(Init, actions);
    AloneCreationEnds(Run(Init, actions).tables, Run(Init, actions).roots, identity, hash, at);
  }

  lemma ThreeCalls(t: Tables, r: RootStore, c: Client)
    ensures !Finished(c) ==>
              var (t1, r1, c1) := Advance(t, r, c, "");
              !Finished(c1) ==>
                var (t2, r2, c2) := Advance(t1, r1, c1, "");
                !Finished(c2) ==> Solo(t, r, c, "", 3) == Advance(t2, r2, c2, "")
  {
  }

  /** Repeating a finished creation succeeds exactly until the first commit, and then is refused. */
  lemma {:induction false} RepeatedCreation(actions: seq<Action>, at: int)
    requires Run(Init, actions).tables.document.Some? && ValidTimestamp(at)
    requires 1 in Run(Init, actions).tables.versions
    ensures var s := Run(Init, actions);
            var d := s.tables.document.value;
            var c := Solo(s.tables, s.roots, Creating(d.identity, s.tables.versions[1].stateHash, at), "", 3).2;
            (c.Made? <==> d.headVersion == 1) && (!c.Made? ==> c == Threw(CreateConflict))
  {
    InitHolds();
    RunKeeps(Init, actions);
    var s := Run(Init, actions);
    var d := s.tables.document.value;
    FirstVersionIsValid(Init, actions);
    ThreeCalls(s.tables, s.roots, Creating(d.identity, s.tables.versions[1].stateHash, at));
    var id := CreateRoot(CreationDigest(d.identity, s.tables.versions[1].stateHash));
    assert Earned(s.tables, id, s.roots.applied[id]);
  }

  predicate ValidFirstVersion(t: Tables) {
    && (t.document.Some? ==> ValidIdentity(t.document.value.identity) && 1 in t.versions && ValidHash(t.versions[1].stateHash))
    && (t.creation.Some? ==> ValidIdentity(t.creation.value.identity) && ValidHash(t.creation.value.stateHash))
  }

  lemma {:induction false} FirstVersionIsValid(s: System, actions: seq<Action>)
    requires ValidFirstVersion(s.tables)
    ensures ValidFirstVersion(Run(s, actions).tables)
  {
    if actions != [] {
      FirstVersionIsValid(s, actions[..|actions| - 1]);
    }
  }
}
