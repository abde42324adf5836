/**
 * The gateway's directory of documents: a reservation made once per idempotency key, and the states a
 * reserved document goes through.
 */
module DirectoryTables {
  import opened Wrappers

  const MAX_SAFE_INTEGER := 9_007_199_254_740_991

  datatype State = Creating | Ready | Failed

  datatype Document = Document(
    docType: string, serviceId: string, sessionId: string, key: string,
    state: State, version: Option<int>, error: Option<string>, createdAt: int, updatedAt: int)

  datatype Reservation = Reservation(
    tenantId: string, docId: string, docType: string, serviceId: string, sessionId: string, key: string, requestedDocId: Option<string>)

  /** Documents by tenant and id; requests by tenant and idempotency key. */
  datatype Directory = Directory(documents: map<(string, string), Document>, requests: map<(string, string), Option<string>>)

  datatype Error = Conflict | NotPersisted | InvalidVersion

  predicate HasKey(d: Directory, id: (string, string), tenantId: string, key: string) {
    id in d.documents && id.0 == tenantId && d.documents[id].key == key
  }

  predicate KeyUsed(d: Directory, tenantId: string, key: string) {
    exists id :: id in d.documents && HasKey(d, id, tenantId, key)
  }

  /** Both inserts ignore rows that collide with a key or an id already there. */
  function Reserved(d: Directory, r: Reservation, now: int): Directory {
    var id := (r.tenantId, r.docId);
    var d1 := if id in d.documents || KeyUsed(d, r.tenantId, r.key) then d
              else d.(documents := d.documents[id := Document(r.docType, r.serviceId, r.sessionId, r.key, Creating, None, None, now, now)]);
    if KeyUsed(d1, r.tenantId, r.key) && (r.tenantId, r.key) !in d1.requests
    then d1.(requests := d1.requests[(r.tenantId, r.key) := r.requestedDocId])
    else d1
  }

  /** The recorded document is the one this reservation asks for. */
  predicate SameReservation(d: Directory, id: (string, string), r: Reservation) {
    && id in d.documents && d.documents[id].docType == r.docType && d.documents[id].serviceId == r.serviceId
    && r.requestedDocId == if (r.tenantId, r.key) in d.requests then d.requests[(r.tenantId, r.key)] else None
  }

  /** The reservation inserts its document: neither its id nor its key is taken. */
  ghost predicate Creates(d: Directory, r: Reservation) {
    (r.tenantId, r.docId) !in d.documents && !KeyUsed(d, r.tenantId, r.key)
  }

  /**
   * What `reserve` may answer from the directory it reads after its inserts: the document of the key if it
   * is the one asked for, else a conflict, with another request or over the document id.
   */
  ghost predicate ReserveAnswers(d: Directory, r: Reservation, created: bool, answer: Result<((string, string), bool), Error>) {
    match answer
    case Success((id, c)) => HasKey(d, id, r.tenantId, r.key) && SameReservation(d, id, r) && c == created
    case Failure(e) =>
      && e == Conflict
      && if KeyUsed(d, r.tenantId, r.key) then exists id :: HasKey(d, id, r.tenantId, r.key) && !SameReservation(d, id, r)
         else (r.tenantId, r.docId) in d.documents
  }

  function MarkReady(d: Directory, id: (string, string), version: int, at: int): Option<Directory> {
    if id in d.documents && d.documents[id].state != Failed
    then Some(d.(documents := d.documents[id := d.documents[id].(state := Ready, version := Some(version), error := None, updatedAt := at)]))
    else None
  }

  function MarkFailed(d: Directory, id: (string, string), error: string, at: int): Option<Directory> {
    if id in d.documents && d.documents[id].state != Ready
    then Some(d.(documents := d.documents[id := d.documents[id].(state := Failed, error := Some(error), updatedAt := at)]))
    else None
  }

  function Touch(d: Directory, id: (string, string), at: int): Option<Directory> {
    if id in d.documents && d.documents[id].state == Ready
    then Some(d.(documents := d.documents[id := d.documents[id].(updatedAt := at)]))
    else None
  }

  function VersionOf(doc: Document): int {
    if doc.version.Some? then doc.version.value else 0
  }

  function Max(a: int, b: int): int {
    if a < b then b else a
  }

  function AdvanceVersion(d: Directory, id: (string, string), version: int, at: int): Directory {
    if id in d.documents && d.documents[id].state == Ready && VersionOf(d.documents[id]) < version
    then d.(documents := d.documents[id := d.documents[id].(version := Some(version), updatedAt := Max(d.documents[id].updatedAt, at))])
    else d
  }

  datatype Call =
    | Reserve(reservation: Reservation, now: int)
    | MarkedReady(id: (string, string), version: int, at: int)
    | MarkedFailed(id: (string, string), error: string, at: int)
    | Touched(id: (string, string), at: int)
    | Advance(id: (string, string), version: int, at: int)

  function Or(d: Directory, r: Option<Directory>): Directory {
    if r.Some? then r.value else d
  }

  function Step(d: Directory, c: Call): Directory {
    match c
    case Reserve(r, now) => Reserved(d, r, now)
    case MarkedReady(id, v, at) => if 1 <= v <= MAX_SAFE_INTEGER then Or(d, MarkReady(d, id, v, at)) else d
    case MarkedFailed(id, e, at) => Or(d, MarkFailed(d, id, e, at))
    case Touched(id, at) => Or(d, Touch(d, id, at))
    case Advance(id, v, at) => if 1 <= v <= MAX_SAFE_INTEGER && 0 <= at <= MAX_SAFE_INTEGER then AdvanceVersion(d, id, v, at) else d
  }

  function Run(d: Directory, calls: seq<Call>): Directory {
    if calls == [] then d else Step(Run(d, calls[..|calls| - 1]), calls[|calls| - 1])
  }

  /** A key names one document of its tenant, and every document's key has its request. */
  ghost predicate Inv(d: Directory) {
    && (forall id, id' :: id in d.documents && id' in d.documents && id.0 == id'.0 && d.documents[id].key == d.documents[id'].key ==> id == id')
    && (forall id :: id in d.documents ==> (id.0, d.documents[id].key) in d.requests)
  }

  /** What a document was reserved as never changes; ready and failed are final. */
  ghost predicate Grows(d: Directory, d': Directory) {
    && (forall id :: id in d.documents ==> id in d'.documents && SameIdentity(d.documents[id], d'.documents[id]))
    && (forall k :: k in d.requests ==> k in d'.requests && d'.requests[k] == d.requests[k])
  }

  predicate SameIdentity(a: Document, b: Document) {
    && a.docType == b.docType && a.serviceId == b.serviceId && a.sessionId == b.sessionId && a.key == b.key && a.createdAt == b.createdAt
    && (a.state != Creating ==> b.state == a.state)
  }

  lemma ReserveKeeps(d: Directory, r: Reservation, now: int)
    requires Inv(d)
    ensures Inv(Reserved(d, r, now)) && Grows(d, Reserved(d, r, now))
  {
    var d' := Reserved(d, r, now);
    var id := (r.tenantId, r.docId);
    if d'.documents != d.documents {
      assert HasKey(d', id, r.tenantId, r.key);
      forall other | other in d.documents && other.0 == r.tenantId ensures d.documents[other].key != r.key {
        assert !HasKey(d, other, r.tenantId, r.key);
      }
    }
  }

  lemma OneRowChanged(d: Directory, id: (string, string), doc: Document)
    requires Inv(d) && id in d.documents && SameIdentity(d.documents[id], doc)
    ensures Inv(d.(documents := d.documents[id := doc])) && Grows(d, d.(documents := d.documents[id := doc]))
  {
  }

  lemma StepKeeps(d: Directory, c: Call)
    requires Inv(d)
    ensures Inv(Step(d, c)) && Grows(d, Step(d, c))
  {
    if c.Reserve? {
      ReserveKeeps(d, c.reservation, c.now);
    } else if Step(d, c) != d {
      assert Step(d, c) == d.(documents := d.documents[c.id := Step(d, c).documents[c.id]]);
      OneRowChanged(d, c.id, Step(d, c).documents[c.id]);
    }
  }

  lemma {:induction false} RunKeeps(d: Directory, calls: seq<Call>)
    requires Inv(d)
    ensures Inv(Run(d, calls)) && Grows(d, Run(d, calls))
  {
    if calls != [] {
      RunKeeps(d, calls[..|calls| - 1]);
      StepKeeps(Run(d, calls[..|calls| - 1]), calls[|calls| - 1]);
    }
  }

  function Empty(): Directory { Directory(map[], map[]) }

  /** Ready and failed are absorbing, and what a document was reserved as never changes. */
  lemma {:induction false} StatesAreAbsorbing(calls: seq<Call>, later: seq<Call>, id: (string, string))
    requires id in Run(Empty(), calls).documents
    ensures id in Run(Run(Empty(), calls), later).documents
    ensures SameIdentity(Run(Empty(), calls).documents[id], Run(Run(Empty(), calls), later).documents[id])
  {
    RunKeeps(Empty(), calls);
    RunKeeps(Run(Empty(), calls), later);
  }

  /**
   * Once a key got its document, reserving with it again changes nothing and names that document, or
   * conflicts if the request differs, whatever is called before, between and after its two statements.
   */
  lemma {:induction false} ReservationsAreIdempotent(calls: seq<Call>, r: Reservation, now: int, between: seq<Call>, id: (string, string),
                                  created: bool, later: seq<Call>, r': Reservation, now': int, between': seq<Call>,
                                  answer: Result<((string, string), bool), Error>)
    requires ReserveAnswers(Run(Reserved(Run(Empty(), calls), r, now), between), r, created, Success((id, created)))
    requires r'.tenantId == r.tenantId && r'.key == r.key
    requires var d := Run(Run(Reserved(Run(Empty(), calls), r, now), between), later);
      var again := Creates(d, r');
      ReserveAnswers(Run(Reserved(d, r', now'), between'), r', again, answer)
    ensures var d := Run(Run(Reserved(Run(Empty(), calls), r, now), between), later);
      && Reserved(d, r', now') == d
      && answer == if r'.docType == r.docType && r'.serviceId == r.serviceId && r'.requestedDocId == r.requestedDocId
                   then Success((id, false)) else Failure(Conflict)
  {
    RunKeeps(Empty(), calls);
    ReserveKeeps(Run(Empty(), calls), r, now);
    RunKeeps(Reserved(Run(Empty(), calls), r, now), between);
    var first := Run(Reserved(Run(Empty(), calls), r, now), between);
    RunKeeps(first, later);
    var d := Run(first, later);
    assert HasKey(first, id, r.tenantId, r.key) && HasKey(d, id, r.tenantId, r.key);
    assert Reserved(d, r', now') == d;
    RunKeeps(d, between');
    var read := Run(d, between');
    assert HasKey(read, id, r.tenantId, r.key);
    forall other | HasKey(read, other, r.tenantId, r.key) ensures other == id {}
  }

  /** A version of the document that its session reported, and when. */
  datatype Observation = Observation(version: int, at: int)

  function Advanced(d: Directory, id: (string, string), seen: seq<Observation>): Directory {
    if seen == [] then d
    else AdvanceVersion(Advanced(d, id, seen[..|seen| - 1]), id, seen[|seen| - 1].version, seen[|seen| - 1].at)
  }

  ghost predicate Observed(seen: seq<Observation>, v: int) {
    exists k :: 0 <= k < |seen| && seen[k].version == v
  }

  ghost predicate IsMaximum(m: int, first: int, seen: seq<Observation>) {
    && (m == first || Observed(seen, m)) && first <= m && forall v :: Observed(seen, v) ==> v <= m
  }

  /** Observed versions of a ready document add up to their maximum, whenever each was observed. */
  lemma {:induction false} AdvancesTakeTheMaximum(d: Directory, id: (string, string), seen: seq<Observation>)
    requires id in d.documents && d.documents[id].state == Ready
    ensures var d' := Advanced(d, id, seen);
      id in d'.documents && d'.documents[id].state == Ready && IsMaximum(VersionOf(d'.documents[id]), VersionOf(d.documents[id]), seen)
  {
    if seen != [] {
      var earlier, last := seen[..|seen| - 1], seen[|seen| - 1];
      AdvancesTakeTheMaximum(d, id, earlier);
      forall v ensures Observed(seen, v) <==> Observed(earlier, v) || v == last.version {
        assert forall k :: 0 <= k < |earlier| ==> seen[k] == earlier[k];
      }
    }
  }

  lemma {:induction false} OrderDoesNotMatter(d: Directory, id: (string, string), seen: seq<Observation>, other: seq<Observation>)
    requires id in d.documents && d.documents[id].state == Ready && forall v :: Observed(seen, v) <==> Observed(other, v)
    ensures id in Advanced(d, id, seen).documents && id in Advanced(d, id, other).documents
    ensures VersionOf(Advanced(d, id, seen).documents[id]) == VersionOf(Advanced(d, id, other).documents[id])
  {
    AdvancesTakeTheMaximum(d, id, seen);
    AdvancesTakeTheMaximum(d, id, other);
  }

  /** The document in the state, with the version and the error, that this says; nothing else of it has changed. */
  predicate Becomes(before: Document, after: Document, state: State, version: Option<int>, error: Option<string>, at: int) {
    && after.state == state && after.version == version && after.error == error && after.updatedAt == at
    && after.docType == before.docType && after.serviceId == before.serviceId && after.sessionId == before.sessionId
    && after.key == before.key && after.createdAt == before.createdAt
  }

  predicate OnlyThis(d: Directory, d': Directory, id: (string, string)) {
    d'.requests == d.requests && d'.documents.Keys == d.documents.Keys && forall o :: o in d.documents && o != id ==> d'.documents[o] == d.documents[o]
  }

  /**
   * What each call makes of a document: a creation marked ready is ready at exactly that version, one marked
   * failed has failed with that error, and neither outcome is undone by the other; a ready document's version
   * only rises by observations, and its time with it; a touch sets its time.
   */
  lemma CallsMean(d: Directory, c: Call, before: Document)
    requires !c.Reserve? && c.id in d.documents && before == d.documents[c.id]
    ensures var d' := Step(d, c); OnlyThis(d, d', c.id) && var after := d'.documents[c.id];
      match c
      case MarkedReady(_, v, at) =>
        if 1 <= v <= MAX_SAFE_INTEGER && before.state != Failed then Becomes(before, after, Ready, Some(v), None, at) else after == before
      case MarkedFailed(_, e, at) =>
        if before.state != Ready then Becomes(before, after, Failed, before.version, Some(e), at) else after == before
      case Touched(_, at) =>
        if before.state == Ready then Becomes(before, after, Ready, before.version, before.error, at) else after == before
      case Advance(_, v, at) =>
        if 1 <= v <= MAX_SAFE_INTEGER && 0 <= at <= MAX_SAFE_INTEGER && before.state == Ready && (before.version.None? || before.version.value < v)
           && v > 0
        then Becomes(before, after, Ready, Some(v), before.error, if at < before.updatedAt then before.updatedAt else at) else after == before
      case Reserve(_, _) => true
  {
  }

  /** Calls on documents there are not change nothing; a reservation adds its document, creating, and its request, exactly if both are new. */
  lemma ReservationsMean(d: Directory, r: Reservation, now: int)
    requires Inv(d)
    ensures var d' := Reserved(d, r, now); var id := (r.tenantId, r.docId);
      if Creates(d, r) then
        && d'.documents.Keys == d.documents.Keys + {id} && (forall o :: o in d.documents ==> d'.documents[o] == d.documents[o])
        && d'.documents[id] == Document(r.docType, r.serviceId, r.sessionId, r.key, Creating, None, None, now, now)
        && (r.tenantId, r.key) in d'.requests
        && d'.requests[(r.tenantId, r.key)] == if (r.tenantId, r.key) in d.requests then d.requests[(r.tenantId, r.key)] else r.requestedDocId
      else d' == d
  {
    var d1 := d.(documents := d.documents[(r.tenantId, r.docId) := Document(r.docType, r.serviceId, r.sessionId, r.key, Creating, None, None, now, now)]);
    assert HasKey(d1, (r.tenantId, r.docId), r.tenantId, r.key);
  }

  /** A reservation asks for the recorded document if it names the same type and service, and the same id or, where none is recorded, none. */
  lemma SameReservationMeans(d: Directory, id: (string, string), r: Reservation)
    requires id in d.documents
    ensures SameReservation(d, id, r) <==>
      && r.docType == d.documents[id].docType && r.serviceId == d.documents[id].serviceId
      && (r.requestedDocId.None? ==> (r.tenantId, r.key) in d.requests ==> d.requests[(r.tenantId, r.key)].None?)
      && (r.requestedDocId.Some? ==> (r.tenantId, r.key) in d.requests && d.requests[(r.tenantId, r.key)] == r.requestedDocId)
  {
  }

  lemma MissingDocumentsStayMissing(d: Directory, c: Call)
    requires !c.Reserve? && c.id !in d.documents
    ensures Step(d, c) == d
  {
  }

  /** A ready document's version falls exactly when it is marked ready again with a smaller one. */
  lemma VersionFallsOnlyByMarkReady(d: Directory, c: Call, id: (string, string))
    requires id in d.documents && d.documents[id].state == Ready
    ensures id in Step(d, c).documents
    ensures VersionOf(Step(d, c).documents[id]) < VersionOf(d.documents[id])
            <==> c.MarkedReady? && c.id == id && 1 <= c.version < VersionOf(d.documents[id]) && c.version <= MAX_SAFE_INTEGER
  {
  }
}

module DocumentDirectories {
  import opened Wrappers
  import T = DirectoryTables

  class D1GatewayDocumentDirectory {
    var directory: T.Directory

    ghost predicate Valid()
      reads this
    {
      T.Inv(directory)
    }

    constructor ()
      ensures Valid() && directory == T.Empty()
    {
      directory := T.Empty();
    }

    method FindByIdempotencyKey(tenantId: string, key: string) returns (id: Option<(string, string)>)
      ensures id.None? <==> !T.KeyUsed(directory, tenantId, key)
      ensures id.Some? ==> T.HasKey(directory, id.value, tenantId, key)
    {
      var rest := directory.documents.Keys;
      while rest != {}
        invariant rest <= directory.documents.Keys
        invariant forall k :: k in directory.documents && k !in rest ==> !T.HasKey(directory, k, tenantId, key)
        decreases rest
      {
        var k := Pick(rest);
        if T.HasKey(directory, k, tenantId, key) { return Some(k); }
        rest := rest - {k};
      }
      return None;
    }

    /** Calls of others that take effect before the next statement. */
    method Between(calls: seq<T.Call>)
      requires Valid()
      modifies this
      ensures Valid() && directory == T.Run(old(directory), calls) && T.Grows(old(directory), directory)
    {
      T.RunKeeps(directory, calls);
      ghost var before := directory;
      for i := 0 to |calls|
        invariant directory == T.Run(before, calls[..i])
      {
        assert calls[..i + 1][..i] == calls[..i];
        directory := T.Step(directory, calls[i]);
      }
      assert calls[..|calls|] == calls;
    }

    /**
     * Two inserts that ignore collisions, then the row of the key decides, others being served in between;
     * a reservation is never lost without a conflict.
     */
    method Reserve(r: T.Reservation, now: int, between: seq<T.Call>, later: seq<T.Call>)
        returns (answer: Result<((string, string), bool), T.Error>)
      requires Valid()
      modifies this
      ensures Valid()
      ensures var read := T.Run(T.Reserved(old(directory), r, now), between);
        var created := T.Creates(old(directory), r);
        && T.ReserveAnswers(read, r, created, answer)
        && directory == if T.KeyUsed(read, r.tenantId, r.key) then read else T.Run(read, later)
    {
      var id := (r.tenantId, r.docId);
      var existing := FindByIdempotencyKey(r.tenantId, r.key);
      var created := id !in directory.documents && existing.None?;
      if created {
        var document := T.Document(r.docType, r.serviceId, r.sessionId, r.key, T.Creating, None, None, now, now);
        directory := directory.(documents := directory.documents[id := document]);
        assert T.HasKey(directory, id, r.tenantId, r.key);
      }
      if (created || existing.Some?) && (r.tenantId, r.key) !in directory.requests {
        directory := directory.(requests := directory.requests[(r.tenantId, r.key) := r.requestedDocId]);
      }
      T.ReserveKeeps(old(directory), r, now);
      Between(between);
      var record := FindByIdempotencyKey(r.tenantId, r.key);
      if record.None? {
        Between(later);
        return Failure(if id in directory.documents then T.Conflict else T.NotPersisted);
      }
      if !T.SameReservation(directory, record.value, r) { return Failure(T.Conflict); }
      return Success((record.value, created));
    }

    method MarkReady(id: (string, string), version: int, at: int) returns (r: Result<T.Document, T.Error>)
      requires Valid()
      modifies this
      ensures Valid()
      ensures directory == T.Step(old(directory), T.MarkedReady(id, version, at))
      ensures !(1 <= version <= T.MAX_SAFE_INTEGER) ==> r == Failure(T.InvalidVersion)
      ensures 1 <= version <= T.MAX_SAFE_INTEGER && T.MarkReady(old(directory), id, version, at).None? ==> r == Failure(T.Conflict)
      ensures 1 <= version <= T.MAX_SAFE_INTEGER && T.MarkReady(old(directory), id, version, at).Some? ==>
        id in directory.documents && r == Success(directory.documents[id])
    {
      T.StepKeeps(directory, T.MarkedReady(id, version, at));
      if version < 1 || version > T.MAX_SAFE_INTEGER { return Failure(T.InvalidVersion); }
      if id !in directory.documents || directory.documents[id].state == T.Failed { return Failure(T.Conflict); }
      var document := directory.documents[id].(state := T.Ready, version := Some(version), error := None, updatedAt := at);
      directory := directory.(documents := directory.documents[id := document]);
      return Success(document);
    }

    method AdvanceVersion(id: (string, string), version: int, observedAt: int) returns (valid: bool)
      requires Valid()
      modifies this
      ensures Valid()
      ensures directory == T.Step(old(directory), T.Advance(id, version, observedAt))
      ensures valid <==> 1 <= version <= T.MAX_SAFE_INTEGER && 0 <= observedAt <= T.MAX_SAFE_INTEGER
    {
      T.StepKeeps(directory, T.Advance(id, version, observedAt));
      if !(1 <= version <= T.MAX_SAFE_INTEGER && 0 <= observedAt <= T.MAX_SAFE_INTEGER) { return false; }
      if id in directory.documents && directory.documents[id].state == T.Ready {
        var document := directory.documents[id];
        if document.version.None? || document.version.value < version {
          document := document.(version := Some(version), updatedAt := if document.updatedAt < observedAt then observedAt else document.updatedAt);
          directory := directory.(documents := directory.documents[id := document]);
        }
      }
      return true;
    }
  }
}
