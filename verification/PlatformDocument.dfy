/**
 * The platform document: a versioned head with an intent table, kept in one durable object.
 *
 * Every operation is first given as a function on the four tables, and the class below carries the
 * same tables as fields that its methods update statement by statement. A method that throws inside
 * a transaction leaves the tables as they were.
 */
module DocumentTables {
  import opened Wrappers

  const MAX_SAFE_INTEGER: int := 0x1F_FFFF_FFFF_FFFF

  datatype Identity = Identity(
    tenantId: string, docId: string, docType: string, ownerActorId: string, schemaVersion: string)

  datatype Candidate = Candidate(operationId: string, baseVersion: int, stateHash: string)

  /** A SHA-256 request digest, represented by what it was computed from (collision freedom). */
  datatype Digest =
    | CreationDigest(identity: Identity, stateHash: string)
    | CommitDigest(identity: Identity, candidate: Candidate)

  datatype Outcome = Pending | Committed(version: int) | Rejected(headVersion: int)

  datatype Receipt = Receipt(operationId: string, baseVersion: int, requestDigest: Digest, outcome: Outcome)
  {
    predicate Terminal() { !outcome.Pending? }
  }

  /** What `commitStatus` answers for an operation: its receipt, or that it was never begun. */
  datatype Status = Known(receipt: Receipt) | Unknown(operationId: string)

  datatype Version = Version(stateHash: string, createdAt: int)
  datatype Head = Head(version: int, stateHash: string, createdAt: int)
  datatype Creation = Creation(identity: Identity, stateHash: string, requestDigest: Digest)
  datatype Intent = Intent(baseVersion: int, requestDigest: Digest, stateHash: string, receipt: Receipt)
  datatype PendingCommit = PendingCommit(candidate: Candidate, receipt: Receipt)
  datatype Document = Document(identity: Identity, headVersion: int)
  datatype Created = Created(identity: Identity, head: Head)

  /** The four tables. */
  datatype Tables = Tables(
    document: Option<Document>,
    versions: map<int, Version>,
    creation: Option<Creation>,
    intents: map<string, Intent>)

  const EmptyTables: Tables := Tables(None, map[], None, map[])

  datatype Error =
    | InvalidArgument
    | CreateConflict
    | IdentityConflict
    | DocumentNotFound
    | PayloadConflict
    | OperationNotFound
    | PendingHeadChanged
    | InvalidStoredReceipt
    | MissingRow
    | UniqueViolation

  type Answer<T> = Result<T, Error>

  // ---------------------------------------------------------------- argument checks

  predicate ValidText(s: string) { 0 < |s| <= 256 }

  predicate ValidIdentity(i: Identity) {
    ValidText(i.tenantId) && ValidText(i.docId) && ValidText(i.docType)
    && ValidText(i.ownerActorId) && ValidText(i.schemaVersion)
  }

  predicate IdentifierChar(c: char) {
    'A' <= c <= 'Z' || 'a' <= c <= 'z' || '0' <= c <= '9' || c == '_' || c == '-'
  }

  predicate ValidOperationId(s: string) {
    1 <= |s| <= 128 && forall k :: 0 <= k < |s| ==> IdentifierChar(s[k])
  }

  predicate HexChar(c: char) { 'a' <= c <= 'f' || '0' <= c <= '9' }

  predicate ValidHash(s: string) {
    |s| == 64 && forall k :: 0 <= k < |s| ==> HexChar(s[k])
  }

  predicate SafeInteger(n: int) { -MAX_SAFE_INTEGER <= n <= MAX_SAFE_INTEGER }

  predicate ValidTimestamp(t: int) { SafeInteger(t) && 0 <= t }

  predicate ValidCandidate(c: Candidate) {
    ValidOperationId(c.operationId)
    && SafeInteger(c.baseVersion) && 1 <= c.baseVersion && c.baseVersion != MAX_SAFE_INTEGER
    && ValidHash(c.stateHash)
  }

  /** A stored receipt that `parseReceipt` accepts. */
  predicate ValidStoredReceipt(r: Receipt) {
    ValidOperationId(r.operationId) && SafeInteger(r.baseVersion) && 1 <= r.baseVersion
    && match r.outcome
       case Pending => true
       case Committed(v) => v == r.baseVersion + 1
       case Rejected(h) => SafeInteger(h) && 1 <= h
  }

  function ParseReceipt(r: Receipt): Answer<Receipt> {
    if ValidStoredReceipt(r) then Success(r) else Failure(InvalidStoredReceipt)
  }

  // ---------------------------------------------------------------- operations on the tables

  function BeginCreate(s: Tables, identity: Identity, stateHash: string): (Tables, Answer<Creation>) {
    var wanted := Creation(identity, stateHash, CreationDigest(identity, stateHash));
    if !ValidIdentity(identity) || !ValidHash(stateHash) then (s, Failure(InvalidArgument))
    else if s.document.Some? then
      if s.document.value.identity != identity then (s, Failure(CreateConflict))
      else if 1 !in s.versions then (s, Failure(MissingRow))
      else if s.versions[1].stateHash != stateHash then (s, Failure(CreateConflict))
      else (s, Success(wanted))
    else if s.creation.Some? then
      if s.creation.value != wanted then (s, Failure(CreateConflict)) else (s, Success(wanted))
    else (s.(creation := Some(wanted)), Success(wanted))
  }

  function CreateRetained(s: Tables, identity: Identity, stateHash: string, createdAt: int): (Tables, Answer<Created>) {
    if !ValidIdentity(identity) || !ValidHash(stateHash) || !ValidTimestamp(createdAt) then
      (s, Failure(InvalidArgument))
    else if s.document.Some? then
      var head := s.document.value.headVersion;
      if s.document.value.identity != identity then (s, Failure(IdentityConflict))
      else if head !in s.versions then (s, Failure(MissingRow))
      else if head != 1 || s.versions[head].stateHash != stateHash then (s, Failure(CreateConflict))
      else (s, Success(Created(identity, Head(head, s.versions[head].stateHash, s.versions[head].createdAt))))
    else if s.creation.None? then (s, Failure(MissingRow))
    else if s.creation.value.identity != identity || s.creation.value.stateHash != stateHash then
      (s, Failure(CreateConflict))
    else if 1 in s.versions then (s, Failure(UniqueViolation))
    else
      (s.(document := Some(Document(identity, 1)),
          versions := s.versions[1 := Version(stateHash, createdAt)],
          creation := None),
       Success(Created(identity, Head(1, stateHash, createdAt))))
  }

  /** The first, unguarded read of `beginCommit`, made before its digest is awaited. */
  function ReadIdentity(s: Tables, c: Candidate): Answer<Identity> {
    if !ValidCandidate(c) then Failure(InvalidArgument)
    else if s.document.None? then Failure(DocumentNotFound)
    else Success(s.document.value.identity)
  }

  predicate OtherPending(s: Tables, operationId: string) {
    exists op :: op in s.intents && op != operationId && s.intents[op].receipt.outcome.Pending?
  }

  /** The transaction of `beginCommit`, with the digest of the identity read earlier. */
  function BeginCommit(s: Tables, c: Candidate, digest: Digest): (Tables, Answer<Receipt>) {
    if s.document.None? then (s, Failure(DocumentNotFound))
    else if c.operationId in s.intents then
      var existing := s.intents[c.operationId];
      if existing.requestDigest != digest || existing.baseVersion != c.baseVersion || existing.stateHash != c.stateHash then
        (s, Failure(PayloadConflict))
      else (s, ParseReceipt(existing.receipt))
    else
      var head := s.document.value.headVersion;
      var receipt := Receipt(c.operationId, c.baseVersion, digest,
                             if c.baseVersion == head then Pending else Rejected(head));
      if receipt.outcome.Pending? && OtherPending(s, c.operationId) then (s, Failure(UniqueViolation))
      else
        (s.(intents := s.intents[c.operationId := Intent(c.baseVersion, digest, c.stateHash, receipt)]),
         Success(receipt))
  }

  function CommitRetained(s: Tables, operationId: string, committedAt: int): (Tables, Answer<Receipt>) {
    if !ValidOperationId(operationId) || !ValidTimestamp(committedAt) then (s, Failure(InvalidArgument))
    else if s.document.None? then (s, Failure(DocumentNotFound))
    else if operationId !in s.intents then (s, Failure(OperationNotFound))
    else
      var intent := s.intents[operationId];
      var receipt := intent.receipt;
      if !ValidStoredReceipt(receipt) then (s, Failure(InvalidStoredReceipt))
      else if receipt.Terminal() then (s, Success(receipt))
      else if s.document.value.headVersion != receipt.baseVersion then (s, Failure(PendingHeadChanged))
      else
        var version := receipt.baseVersion + 1;
        var committed := Receipt(operationId, receipt.baseVersion, receipt.requestDigest, Committed(version));
        if version in s.versions then (s, Failure(UniqueViolation))
        else
          (s.(document := Some(s.document.value.(headVersion := version)),
              versions := s.versions[version := Version(intent.stateHash, committedAt)],
              intents := s.intents[operationId := intent.(receipt := committed)]),
           Success(committed))
  }

  function CommitStatus(s: Tables, operationId: string): Answer<Status> {
    if !ValidOperationId(operationId) then Failure(InvalidArgument)
    else if operationId !in s.intents then Success(Unknown(operationId))
    else if !ValidStoredReceipt(s.intents[operationId].receipt) then Failure(InvalidStoredReceipt)
    else Success(Known(s.intents[operationId].receipt))
  }

  function FindPending(s: Tables, operationId: string): Answer<Option<PendingCommit>> {
    if !ValidOperationId(operationId) then Failure(InvalidArgument)
    else if operationId !in s.intents then Success(None)
    else
      var intent := s.intents[operationId];
      if !ValidStoredReceipt(intent.receipt) then Failure(InvalidStoredReceipt)
      else if intent.receipt.Terminal() then Success(None)
      else Success(Some(PendingCommit(Candidate(operationId, intent.baseVersion, intent.stateHash), intent.receipt)))
  }

  /** `beginCommit` with nothing between its identity read and its transaction. */
  function BeginCommitAlone(s: Tables, c: Candidate): (Tables, Answer<Receipt>) {
    match ReadIdentity(s, c)
    case Failure(e) => (s, Failure(e))
    case Success(i) => BeginCommit(s, c, CommitDigest(i, c))
  }

  // ---------------------------------------------------------------- calls out of turn, and damaged tables

  /** A creation finished out of turn is refused: of another identity, with another hash, after a commit, or begun by nobody. */
  lemma CreationOutOfTurn(s: Tables, identity: Identity, hash: string, at: int)
    requires ValidIdentity(identity) && ValidHash(hash)
    ensures !ValidTimestamp(at) ==> CreateRetained(s, identity, hash, at) == (s, Failure(InvalidArgument))
    ensures ValidTimestamp(at) ==>
      var answer := CreateRetained(s, identity, hash, at).1;
      match s.document
      case None =>
        && (answer == Failure(MissingRow) <==> s.creation.None?)
        && (s.creation.Some? ==>
              (answer == Failure(CreateConflict) <==> s.creation.value.identity != identity || s.creation.value.stateHash != hash))
        && (answer == Failure(UniqueViolation) <==>
              1 in s.versions && s.creation.Some? && s.creation.value.identity == identity && s.creation.value.stateHash == hash)
      case Some(d) =>
        && (answer == Failure(IdentityConflict) <==> d.identity != identity)
        && (answer == Failure(MissingRow) <==> d.identity == identity && d.headVersion !in s.versions)
        && (answer.Success? <==>
              d.identity == identity && d.headVersion in s.versions && d.headVersion == 1 && s.versions[1].stateHash == hash)
    ensures CreateRetained(s, identity, hash, at).1.Failure? ==> CreateRetained(s, identity, hash, at).0 == s
  {
  }

  /** Whatever is stored, a receipt that cannot be parsed is reported by every call that reads it, and changed by none. */
  lemma DamagedReceiptsAreReported(s: Tables, op: string, c: Candidate, digest: Digest, at: int)
    requires ValidOperationId(op) && op in s.intents && !ValidStoredReceipt(s.intents[op].receipt)
    ensures CommitStatus(s, op) == Failure(InvalidStoredReceipt) && FindPending(s, op) == Failure(InvalidStoredReceipt)
    ensures s.document.Some? && ValidTimestamp(at) ==> CommitRetained(s, op, at) == (s, Failure(InvalidStoredReceipt))
    ensures s.document.Some? && c == Candidate(op, s.intents[op].baseVersion, s.intents[op].stateHash) && digest == s.intents[op].requestDigest ==>
              BeginCommit(s, c, digest) == (s, Failure(InvalidStoredReceipt))
  {
  }

  /** A commit finalised out of turn: unknown, decided before, off the head, or over a version there already. */
  lemma CommitOutOfTurn(s: Tables, op: string, at: int)
    requires ValidOperationId(op) && s.document.Some? && (op in s.intents ==> ValidStoredReceipt(s.intents[op].receipt))
    ensures !ValidTimestamp(at) ==> CommitRetained(s, op, at) == (s, Failure(InvalidArgument))
    ensures ValidTimestamp(at) ==>
      var (s', answer) := CommitRetained(s, op, at);
      && (op !in s.intents ==> s' == s && answer == Failure(OperationNotFound))
      && (op in s.intents && !s.intents[op].receipt.outcome.Pending? ==> s' == s && answer == Success(s.intents[op].receipt))
      && (op in s.intents && s.intents[op].receipt.outcome.Pending? ==>
            var base, head := s.intents[op].receipt.baseVersion, s.document.value.headVersion;
            && (answer == Failure(PendingHeadChanged) <==> base != head)
            && (answer == Failure(UniqueViolation) <==> base == head && head + 1 in s.versions)
            && (answer.Failure? ==> s' == s))
  {
  }

  /** A receipt that can be read back: committed as the very next version, or rejected by a head there can be. */
  lemma ReceiptsAreChecked(op: string, base: int, digest: Digest, v: int)
    requires ValidOperationId(op) && 1 <= base <= MAX_SAFE_INTEGER
    ensures ParseReceipt(Receipt(op, base, digest, Pending)).Success?
    ensures ParseReceipt(Receipt(op, base, digest, Committed(v))).Success? <==> v - 1 == base
    ensures ParseReceipt(Receipt(op, base, digest, Rejected(v))).Success? <==> 0 < v && v < MAX_SAFE_INTEGER + 1
    ensures !ParseReceipt(Receipt("", base, digest, Pending)).Success? && !ParseReceipt(Receipt(op, 0, digest, Pending)).Success?
  {
  }
}

/** The durable object itself: the four tables as fields. */
module PlatformDocuments {
  import opened Wrappers
  import opened DocumentTables
  import Spec = DocumentTables

  class PlatformDocument {
    var document: Option<Document>
    var versions: map<int, Version>
    var creation: Option<Creation>
    var intents: map<string, Intent>

    function State(): Tables
      reads this
    {
      Tables(document, versions, creation, intents)
    }

    constructor ()
      ensures State() == EmptyTables
    {
      document, versions, creation, intents := None, map[], None, map[];
    }

    method BeginCreate(identity: Identity, initialStateHash: string) returns (r: Answer<Creation>)
      modifies this
      ensures (State(), r) == Spec.BeginCreate(old(State()), identity, initialStateHash)
    {
      if !ValidIdentity(identity) || !ValidHash(initialStateHash) { return Failure(InvalidArgument); }
      var requestDigest := CreationDigest(identity, initialStateHash);
      if document.Some? {
        if document.value.identity != identity { return Failure(CreateConflict); }
        if 1 !in versions { return Failure(MissingRow); }
        if versions[1].stateHash != initialStateHash { return Failure(CreateConflict); }
        return Success(Creation(identity, initialStateHash, requestDigest));
      }
      if creation.Some? {
        var pending := creation.value;
        if pending.identity != identity || pending.stateHash != initialStateHash || pending.requestDigest != requestDigest {
          return Failure(CreateConflict);
        }
      } else {
        creation := Some(Creation(identity, initialStateHash, requestDigest));
      }
      return Success(Creation(identity, initialStateHash, requestDigest));
    }

    method CreateRetained(identity: Identity, initialStateHash: string, createdAt: int) returns (r: Answer<Created>)
      modifies this
      ensures (State(), r) == Spec.CreateRetained(old(State()), identity, initialStateHash, createdAt)
    {
      if !ValidIdentity(identity) || !ValidHash(initialStateHash) || !ValidTimestamp(createdAt) {
        return Failure(InvalidArgument);
      }
      if document.Some? {
        if document.value.identity != identity { return Failure(IdentityConflict); }
        var head := document.value.headVersion;
        if head !in versions { return Failure(MissingRow); }
        if head != 1 || versions[head].stateHash != initialStateHash { return Failure(CreateConflict); }
        return Success(Created(identity, Head(head, versions[head].stateHash, versions[head].createdAt)));
      }
      if creation.None? { return Failure(MissingRow); }
      if creation.value.identity != identity || creation.value.stateHash != initialStateHash {
        return Failure(CreateConflict);
      }
      document := Some(Document(identity, 1));
      if 1 in versions {
        document := None;  // the failed insert rolls the transaction back
        return Failure(UniqueViolation);
      }
      versions := versions[1 := Version(initialStateHash, createdAt)];
      creation := None;
      return Success(Created(identity, Head(1, initialStateHash, createdAt)));
    }

    /** The first part of `beginCommit`, up to the digest it awaits. */
    method ReadForCommit(candidate: Candidate) returns (r: Answer<Identity>)
      ensures r == ReadIdentity(State(), candidate)
    {
      if !ValidCandidate(candidate) { return Failure(InvalidArgument); }
      if document.None? { return Failure(DocumentNotFound); }
      return Success(document.value.identity);
    }

    /** Its second part, the transaction. */
    method RecordIntent(candidate: Candidate, requestDigest: Digest) returns (r: Answer<Receipt>)
      modifies this
      ensures (State(), r) == Spec.BeginCommit(old(State()), candidate, requestDigest)
    {
      if document.None? { return Failure(DocumentNotFound); }
      if candidate.operationId in intents {
        var existing := intents[candidate.operationId];
        if existing.requestDigest != requestDigest || existing.baseVersion != candidate.baseVersion
           || existing.stateHash != candidate.stateHash {
          return Failure(PayloadConflict);
        }
        return ParseReceipt(existing.receipt);
      }
      var head := document.value.headVersion;
      var outcome := if candidate.baseVersion == head then Pending else Rejected(head);
      var receipt := Receipt(candidate.operationId, candidate.baseVersion, requestDigest, outcome);
      if receipt.outcome.Pending? && OtherPending(State(), candidate.operationId) { return Failure(UniqueViolation); }
      intents := intents[candidate.operationId := Intent(candidate.baseVersion, requestDigest, candidate.stateHash, receipt)];
      return Success(receipt);
    }

    method BeginCommit(candidate: Candidate) returns (r: Answer<Receipt>)
      modifies this
      ensures (State(), r) == BeginCommitAlone(old(State()), candidate)
    {
      var identity := ReadForCommit(candidate);
      if identity.Failure? { return Failure(identity.error); }
      r := RecordIntent(candidate, CommitDigest(identity.value, candidate));
    }

    method CommitRetained(operationId: string, committedAt: int) returns (r: Answer<Receipt>)
      modifies this
      ensures (State(), r) == Spec.CommitRetained(old(State()), operationId, committedAt)
    {
      if !ValidOperationId(operationId) || !ValidTimestamp(committedAt) { return Failure(InvalidArgument); }
      if document.None? { return Failure(DocumentNotFound); }
      if operationId !in intents { return Failure(OperationNotFound); }
      var intent := intents[operationId];
      var receipt := intent.receipt;
      if !ValidStoredReceipt(receipt) { return Failure(InvalidStoredReceipt); }
      if receipt.Terminal() { return Success(receipt); }
      if document.value.headVersion != receipt.baseVersion { return Failure(PendingHeadChanged); }
      var version := receipt.baseVersion + 1;
      var committed := Receipt(operationId, receipt.baseVersion, receipt.requestDigest, Committed(version));
      if version in versions { return Failure(UniqueViolation); }
      versions := versions[version := Version(intent.stateHash, committedAt)];
      document := Some(document.value.(headVersion := version));
      intents := intents[operationId := intent.(receipt := committed)];
      return Success(committed);
    }

    method CommitStatus(operationId: string) returns (r: Answer<Status>)
      ensures r == Spec.CommitStatus(State(), operationId)
    {
      if !ValidOperationId(operationId) { return Failure(InvalidArgument); }
      if operationId in intents {
        if !ValidStoredReceipt(intents[operationId].receipt) { return Failure(InvalidStoredReceipt); }
        return Success(Known(intents[operationId].receipt));
      }
      return Success(Unknown(operationId));
    }

    method PendingCommit(operationId: string) returns (r: Answer<Option<PendingCommit>>)
      ensures r == FindPending(State(), operationId)
    {
      if !ValidOperationId(operationId) { return Failure(InvalidArgument); }
      if operationId !in intents { return Success(None); }
      var intent := intents[operationId];
      if !ValidStoredReceipt(intent.receipt) { return Failure(InvalidStoredReceipt); }
      if intent.receipt.Terminal() { return Success(None); }
      var candidate := Candidate(operationId, intent.baseVersion, intent.stateHash);
      return Success(Some(Spec.PendingCommit(candidate, intent.receipt)));
    }
  }
}
