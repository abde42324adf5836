/**
 * The coordinator as it is written: ordered calls on a document and on the root store, with other clients
 * running between any two of them.
 *
 * Each method is proved to be one client of the protocol, call for call, so that the theorems about
 * interleaved clients are theorems about it; left alone it does exactly what the protocol's `Solo` says.
 */
module PlatformCoordinator {
  import opened Wrappers
  import opened DocumentTables
  import opened PlatformDocuments
  import opened PlatformProtocol

  class RootRetention {
    var applied: map<RequestId, string>
    var refs: map<string, nat>

    function State(): RootStore
      reads this
    {
      RootStore(applied, refs)
    }

    constructor ()
      ensures State() == RootStore(map[], map[])
    {
      applied, refs := map[], map[];
    }

    /** False when the request id was used before with another payload. */
    method RetainRoot(requestId: RequestId, stateHash: string) returns (ok: bool)
      modifies this
      ensures (State(), ok) == Retain(old(State()), requestId, stateHash)
    {
      if requestId in applied { return applied[requestId] == stateHash; }
      refs := refs[stateHash := Refs(State(), stateHash) + 1];
      applied := applied[requestId := stateHash];
      return true;
    }
  }

  datatype CoordinatorError = DocumentError(error: Error) | RetentionRefused | PendingDisappeared

  /** The client state in which a call that answered `r` for operation `op` has ended. */
  function EndedCommit(op: string, origin: Origin, r: Result<Status, CoordinatorError>): Client {
    match r
    case Success(status) => Returned(op, origin, status)
    case Failure(DocumentError(e)) => Threw(e)
    case Failure(RetentionRefused) => RetentionFailed
    case Failure(PendingDisappeared) => Disappeared
  }

  function EndedCreation(r: Result<Created, CoordinatorError>): Client {
    match r
    case Success(created) => Made(created)
    case Failure(DocumentError(e)) => Threw(e)
    case Failure(_) => RetentionFailed
  }

  /** One awaited call, after which a finished client stays as it is. */
  lemma OneCall(t: Tables, r: RootStore, c: Client, captured: string, n: nat)
    requires n > 0 && !Finished(c)
    ensures var (t', r', c') := Advance(t, r, c, captured);
            && Solo(t, r, c, captured, n) == Solo(t', r', c', captured, n - 1)
            && (Finished(c') ==> Solo(t, r, c, captured, n) == (t', r', c'))
  {
  }

  /** The client state in which a resume that answered `r` has ended, for the caller `origin`. */
  function EndedResume(op: string, origin: Origin, r: Result<Status, CoordinatorError>): Client {
    if origin == FromCommit && r.Success? && r.value.Unknown? then Disappeared else EndedCommit(op, origin, r)
  }

  /** The action is not one of client `id`. */
  predicate Leaves(a: Action, id: nat) {
    a.id != id
  }

  class Coordinator {
    const document: PlatformDocument
    const roots: RootRetention
    /** The clients in flight, and what the others do before each of the next calls. */
    var clients: map<nat, Client>
    var others: seq<seq<Action>>
    ghost var trace: seq<Action>

    ghost predicate Valid()
      reads this, document, roots
    {
      System(document.State(), roots.State(), clients) == Run(Init, trace)
    }

    ghost predicate LeftAlone(id: nat)
      reads this
    {
      forall k, j :: 0 <= k < |others| && 0 <= j < |others[k]| ==> Leaves(others[k][j], id)
    }

    /** The call stands here. */
    ghost predicate At(id: nat, c: Client)
      reads this, document, roots
    {
      Valid() && LeftAlone(id) && id in clients && clients[id] == c
    }

    /** What is left of the call, were nobody else to run. */
    ghost function Rest(c: Client, captured: string, n: nat): (Tables, RootStore, Client)
      reads document, roots
    {
      Solo(document.State(), roots.State(), c, captured, n)
    }

    constructor (others: seq<seq<Action>>)
      ensures Valid() && fresh(document) && fresh(roots) && trace == [] && this.others == others
      ensures document.State() == EmptyTables && clients == map[]
    {
      document := new PlatformDocument();
      roots := new RootRetention();
      clients, trace, this.others := map[], [], others;
    }

    /** One action of the system. */
    method Perform(a: Action)
      requires Valid()
      modifies this, document, roots
      ensures Valid() && others == old(others)
      ensures System(document.State(), roots.State(), clients) == Step(old(System(document.State(), roots.State(), clients)), a)
    {
      var next := Step(System(document.State(), roots.State(), clients), a);
      document.document, document.versions := next.tables.document, next.tables.versions;
      document.creation, document.intents := next.tables.creation, next.tables.intents;
      roots.applied, roots.refs := next.roots.applied, next.roots.refs;
      clients := next.clients;
      assert (trace + [a])[..|trace|] == trace;
      trace := trace + [a];
    }

    /** What other clients do before the next call. */
    method Between(id: nat, ghost c: Client)
      requires At(id, c)
      modifies this, document, roots
      ensures At(id, c)
      ensures old(others) == [] ==> others == [] && document.State() == old(document.State()) && roots.State() == old(roots.State())
    {
      if |others| == 0 { return; }
      var now := others[0];
      assert forall j :: 0 <= j < |now| ==> Leaves(now[j], id);
      others := others[1..];
      for j := 0 to |now|
        invariant At(id, c) && others == old(others)[1..]
      {
        assert Leaves(now[j], id);
        Perform(now[j]);
      }
    }

    /** Note where the call stands after one of its own calls, made on tables `t` and roots `r`. */
    method Arrive(id: nat, c: Client, captured: string, ghost t: Tables, ghost r: RootStore)
      requires System(t, r, clients) == Run(Init, trace) && LeftAlone(id) && id in clients
      requires Advance(t, r, clients[id], captured) == (document.State(), roots.State(), c)
      modifies this`clients, this`trace
      ensures At(id, c)
    {
      clients := clients[id := c];
      assert (trace + [Await(id, captured)])[..|trace|] == trace;
      trace := trace + [Await(id, captured)];
    }

    method CreatePlatformDocument(id: nat, identity: Identity, initialStateHash: string, createdAt: int)
        returns (r: Result<Created, CoordinatorError>)
      requires Valid() && LeftAlone(id) && id !in clients
      modifies this, document, roots
      ensures At(id, EndedCreation(r))
      ensures old(others) == [] ==> (document.State(), roots.State(), EndedCreation(r))
                                     == old(Rest(Creating(identity, initialStateHash, createdAt), "", 3))
    {
      Perform(Start(id, Creating(identity, initialStateHash, createdAt)));
      ghost var t, s := document.State(), roots.State();
      OneCall(t, s, Creating(identity, initialStateHash, createdAt), "", 3);
      var begun := document.BeginCreate(identity, initialStateHash);
      Arrive(id, if begun.Success? then RetainingCreation(begun.value, createdAt) else Threw(begun.error), "", t, s);
      if begun.Failure? { return Failure(DocumentError(begun.error)); }
      r := RetainAndCreate(id, begun.value, createdAt);
    }

    method RetainAndCreate(id: nat, creation: Creation, createdAt: int) returns (r: Result<Created, CoordinatorError>)
      requires At(id, RetainingCreation(creation, createdAt))
      modifies this, document, roots
      ensures At(id, EndedCreation(r))
      ensures old(others) == [] ==>
        (document.State(), roots.State(), EndedCreation(r)) == old(Rest(RetainingCreation(creation, createdAt), "", 2))
    {
      Between(id, RetainingCreation(creation, createdAt));
      ghost var t, s := document.State(), roots.State();
      OneCall(t, s, RetainingCreation(creation, createdAt), "", 2);
      var retained := roots.RetainRoot(CreateRoot(creation.requestDigest), creation.stateHash);
      Arrive(id, if retained then FinishingCreation(creation, createdAt) else RetentionFailed, "", t, s);
      if !retained { return Failure(RetentionRefused); }
      Between(id, FinishingCreation(creation, createdAt));
      t, s := document.State(), roots.State();
      OneCall(t, s, FinishingCreation(creation, createdAt), "", 1);
      var made := document.CreateRetained(creation.identity, creation.stateHash, createdAt);
      r := if made.Success? then Success(made.value) else Failure(DocumentError(made.error));
      Arrive(id, EndedCreation(r), "", t, s);
    }

    /** A resume on its own. */
    method ResumePlatformCommit(id: nat, operationId: string, committedAt: int) returns (r: Result<Status, CoordinatorError>)
      requires Valid() && LeftAlone(id) && id !in clients
      modifies this, document, roots
      ensures At(id, EndedCommit(operationId, Standalone, r))
      ensures old(others) == [] ==> (document.State(), roots.State(), EndedCommit(operationId, Standalone, r))
                                     == old(Rest(Resuming(operationId, committedAt, Standalone), "", 3))
    {
      Perform(Start(id, Resuming(operationId, committedAt, Standalone)));
      r := Resume(id, operationId, committedAt, Standalone, "");
    }

    method Resume(id: nat, operationId: string, committedAt: int, origin: Origin, captured: string)
        returns (r: Result<Status, CoordinatorError>)
      requires At(id, Resuming(operationId, committedAt, origin))
      modifies this, document, roots
      ensures At(id, EndedResume(operationId, origin, r))
      ensures old(others) == [] ==> (document.State(), roots.State(), EndedResume(operationId, origin, r))
                                     == old(Rest(Resuming(operationId, committedAt, origin), captured, 3))
    {
      Between(id, Resuming(operationId, committedAt, origin));
      ghost var t, s := document.State(), roots.State();
      OneCall(t, s, Resuming(operationId, committedAt, origin), captured, 3);
      var found := document.PendingCommit(operationId);
      if found.Failure? {
        Arrive(id, Threw(found.error), captured, t, s);
        return Failure(DocumentError(found.error));
      }
      if found.value.None? {
        Arrive(id, ReadingStatus(operationId, origin), captured, t, s);
        r := AnswerStatus(id, operationId, origin, captured);
      } else {
        Arrive(id, RetainingCommit(found.value.value, committedAt, origin), captured, t, s);
        r := RetainAndFinish(id, operationId, found.value.value, committedAt, origin, captured);
      }
    }

    method AnswerStatus(id: nat, operationId: string, origin: Origin, captured: string) returns (r: Result<Status, CoordinatorError>)
      requires At(id, ReadingStatus(operationId, origin))
      modifies this, document, roots
      ensures At(id, EndedResume(operationId, origin, r))
      ensures old(others) == [] ==> (document.State(), roots.State(), EndedResume(operationId, origin, r))
                                     == old(Rest(ReadingStatus(operationId, origin), captured, 2))
    {
      Between(id, ReadingStatus(operationId, origin));
      ghost var t, s := document.State(), roots.State();
      OneCall(t, s, ReadingStatus(operationId, origin), captured, 2);
      var status := document.CommitStatus(operationId);
      r := if status.Success? then Success(status.value) else Failure(DocumentError(status.error));
      Arrive(id, EndedResume(operationId, origin, r), captured, t, s);
    }

    method RetainAndFinish(id: nat, operationId: string, pending: PendingCommit, committedAt: int, origin: Origin, captured: string)
        returns (r: Result<Status, CoordinatorError>)
      requires At(id, RetainingCommit(pending, committedAt, origin)) && pending.candidate.operationId == operationId
      modifies this, document, roots
      ensures At(id, EndedResume(operationId, origin, r))
      ensures old(others) == [] ==> (document.State(), roots.State(), EndedResume(operationId, origin, r))
                                     == old(Rest(RetainingCommit(pending, committedAt, origin), captured, 2))
    {
      Between(id, RetainingCommit(pending, committedAt, origin));
      ghost var t, s := document.State(), roots.State();
      OneCall(t, s, RetainingCommit(pending, committedAt, origin), captured, 2);
      var retained := roots.RetainRoot(CommitRoot(pending.receipt.requestDigest), pending.candidate.stateHash);
      Arrive(id, if retained then FinishingCommit(operationId, committedAt, origin) else RetentionFailed, captured, t, s);
      if !retained { return Failure(RetentionRefused); }
      r := Finish(id, operationId, committedAt, origin, captured);
    }

    method Finish(id: nat, operationId: string, committedAt: int, origin: Origin, captured: string)
        returns (r: Result<Status, CoordinatorError>)
      requires At(id, FinishingCommit(operationId, committedAt, origin))
      modifies this, document, roots
      ensures At(id, EndedResume(operationId, origin, r))
      ensures old(others) == [] ==> (document.State(), roots.State(), EndedResume(operationId, origin, r))
                                     == old(Rest(FinishingCommit(operationId, committedAt, origin), captured, 1))
    {
      Between(id, FinishingCommit(operationId, committedAt, origin));
      ghost var t, s := document.State(), roots.State();
      OneCall(t, s, FinishingCommit(operationId, committedAt, origin), captured, 1);
      var committed := document.CommitRetained(operationId, committedAt);
      r := if committed.Success? then Success(Known(committed.value)) else Failure(DocumentError(committed.error));
      Arrive(id, EndedResume(operationId, origin, r), captured, t, s);
    }

    method CommitPlatformDocument(id: nat, candidate: Candidate, committedAt: int) returns (r: Result<Status, CoordinatorError>)
      requires Valid() && LeftAlone(id) && id !in clients
      modifies this, document, roots
      ensures At(id, EndedCommit(candidate.operationId, FromCommit, r))
      ensures old(others) == [] ==> (document.State(), roots.State(), EndedCommit(candidate.operationId, FromCommit, r))
                                     == old(Rest(Committing(candidate, committedAt), "", 5))
    {
      Perform(Start(id, Committing(candidate, committedAt)));
      r := Commit(id, candidate, committedAt, "");
    }

    /** Begin, between whose read and transaction others may run too, then resume if pending. */
    method Commit(id: nat, candidate: Candidate, committedAt: int, captured: string) returns (r: Result<Status, CoordinatorError>)
      requires At(id, Committing(candidate, committedAt))
      modifies this, document, roots
      ensures At(id, EndedCommit(candidate.operationId, FromCommit, r))
      ensures old(others) == [] ==> (document.State(), roots.State(), EndedCommit(candidate.operationId, FromCommit, r))
                                     == old(Rest(Committing(candidate, committedAt), captured, 5))
    {
      Between(id, Committing(candidate, committedAt));
      ghost var t, s := document.State(), roots.State();
      OneCall(t, s, Committing(candidate, committedAt), captured, 5);
      var identity := document.ReadForCommit(candidate);
      if identity.Failure? {
        Arrive(id, Threw(identity.error), captured, t, s);
        return Failure(DocumentError(identity.error));
      }
      var digest := CommitDigest(identity.value, candidate);
      Arrive(id, Digested(candidate, digest, committedAt), captured, t, s);
      r := RecordAndResume(id, candidate, digest, committedAt, captured);
    }

    method RecordAndResume(id: nat, candidate: Candidate, digest: Digest, committedAt: int, captured: string)
        returns (r: Result<Status, CoordinatorError>)
      requires At(id, Digested(candidate, digest, committedAt))
      modifies this, document, roots
      ensures At(id, EndedCommit(candidate.operationId, FromCommit, r))
      ensures old(others) == [] ==> (document.State(), roots.State(), EndedCommit(candidate.operationId, FromCommit, r))
                                     == old(Rest(Digested(candidate, digest, committedAt), captured, 4))
    {
      Between(id, Digested(candidate, digest, committedAt));
      var next;
      r, next := Record(id, candidate, digest, committedAt, captured);
      if next.Resuming? {
        r := Resume(id, candidate.operationId, committedAt, FromCommit, captured);
        if r.Success? && r.value.Unknown? { r := Failure(PendingDisappeared); }
      }
    }

    /** The transaction, and where it leads: to the answer or to a resume. */
    method Record(id: nat, candidate: Candidate, digest: Digest, committedAt: int, captured: string)
        returns (r: Result<Status, CoordinatorError>, next: Client)
      requires At(id, Digested(candidate, digest, committedAt))
      modifies this`clients, this`trace, document
      ensures At(id, next)
      ensures next == Resuming(candidate.operationId, committedAt, FromCommit)
              || (Finished(next) && next == EndedCommit(candidate.operationId, FromCommit, r))
      ensures Rest(next, captured, 3) == old(Rest(Digested(candidate, digest, committedAt), captured, 4))
    {
      ghost var t, s := document.State(), roots.State();
      OneCall(t, s, Digested(candidate, digest, committedAt), captured, 4);
      var receipt := document.RecordIntent(candidate, digest);
      if receipt.Failure? {
        r, next := Failure(DocumentError(receipt.error)), Threw(receipt.error);
      } else if receipt.value.Terminal() {
        r, next := Success(Known(receipt.value)), Returned(candidate.operationId, FromCommit, Known(receipt.value));
      } else {
        r, next := Success(Known(receipt.value)), Resuming(candidate.operationId, committedAt, FromCommit);
      }
      Arrive(id, next, captured, t, s);
    }

    /** `captured` is the hash under which the captured snapshot is stored when one is taken. */
    method CommitPlatformEditorSnapshot(id: nat, captured: string, operationId: string, baseVersion: int, committedAt: int)
        returns (r: Result<Status, CoordinatorError>, ghost origin: Origin)
      requires Valid() && LeftAlone(id) && id !in clients
      modifies this, document, roots
      ensures origin != Standalone && At(id, EndedCommit(operationId, origin, r))
      ensures old(others) == [] ==> (document.State(), roots.State(), EndedCommit(operationId, origin, r))
                                     == old(Rest(CheckingStatus(operationId, baseVersion, committedAt), captured, 7))
    {
      Perform(Start(id, CheckingStatus(operationId, baseVersion, committedAt)));
      var next;
      r, next := CheckStatus(id, captured, operationId, baseVersion, committedAt);
      if next.Resuming? {
        if Finished(Rest(next, captured, 3).2) {
          MoreCallsChangeNothing(document.State(), roots.State(), next, captured, 3, 6);
        }
        origin := FromEditor;
        r := Resume(id, operationId, committedAt, FromEditor, captured);
      } else if next.Capturing? {
        origin := FromCommit;
        r := CaptureAndCommit(id, captured, operationId, baseVersion, committedAt);
      } else {
        origin := FromEditor;
      }
    }

    /** The read of the status, and where it leads: to the answer, to a resume or to a capture. */
    method CheckStatus(id: nat, captured: string, operationId: string, baseVersion: int, committedAt: int)
        returns (r: Result<Status, CoordinatorError>, next: Client)
      requires At(id, CheckingStatus(operationId, baseVersion, committedAt))
      modifies this`clients, this`trace
      ensures At(id, next)
      ensures next == Resuming(operationId, committedAt, FromEditor) || next == Capturing(operationId, baseVersion, committedAt)
              || (Finished(next) && next == EndedCommit(operationId, FromEditor, r))
      ensures Rest(next, captured, 6) == Rest(CheckingStatus(operationId, baseVersion, committedAt), captured, 7)
    {
      ghost var t, s := document.State(), roots.State();
      OneCall(t, s, CheckingStatus(operationId, baseVersion, committedAt), captured, 7);
      var status := document.CommitStatus(operationId);
      if status.Failure? {
        r, next := Failure(DocumentError(status.error)), Threw(status.error);
      } else if status.value.Unknown? {
        r, next := Success(status.value), Capturing(operationId, baseVersion, committedAt);
      } else if status.value.receipt.Terminal() {
        r, next := Success(status.value), Returned(operationId, FromEditor, status.value);
      } else {
        r, next := Success(status.value), Resuming(operationId, committedAt, FromEditor);
      }
      Arrive(id, next, captured, t, s);
    }

    method CaptureAndCommit(id: nat, captured: string, operationId: string, baseVersion: int, committedAt: int)
        returns (r: Result<Status, CoordinatorError>)
      requires At(id, Capturing(operationId, baseVersion, committedAt))
      modifies this, document, roots
      ensures At(id, EndedCommit(operationId, FromCommit, r))
      ensures old(others) == [] ==> (document.State(), roots.State(), EndedCommit(operationId, FromCommit, r))
                                     == old(Rest(Capturing(operationId, baseVersion, committedAt), captured, 6))
    {
      Between(id, Capturing(operationId, baseVersion, committedAt));
      ghost var t, s := document.State(), roots.State();
      OneCall(t, s, Capturing(operationId, baseVersion, committedAt), captured, 6);
      var candidate := Candidate(operationId, baseVersion, captured);
      Arrive(id, Committing(candidate, committedAt), captured, t, s);
      r := Commit(id, candidate, committedAt, captured);
    }
  }
}
