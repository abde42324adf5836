/**
 * The commit journal of a session: an outbox with at most one pending intent, whose settlement runs
 * a local finaliser in the same transaction.
 *
 * `CommitTables` says what each call answers and leaves behind, `CommitJournals` runs the calls on
 * stored rows.
 */
module CommitTables {
  import opened Wrappers

  const MAX_COMMIT_PAYLOAD_BYTES := 1_048_576
  const MAX_SAFE_INTEGER := 9_007_199_254_740_991
  const MAX_OP_ID_LENGTH := 128

  datatype Scope = Scope(tenantId: string, docType: string, sessionId: string)
  datatype Payload<Op> = Payload(baseVersion: int, description: string, operations: seq<Op>)

  /** The digest of a request, taken over the scope and the whole payload; equal only for equal contents. */
  datatype Digest<Op> = Digest(scope: Scope, payload: Payload<Op>)

  datatype State = Pending | Committed | Rejected
  datatype Verdict = Undecided | Accepted(version: int) | VersionConflict(headVersion: int) | InvalidOperations
  datatype Receipt<Op> = Receipt(opId: string, digest: Digest<Op>, baseVersion: int, verdict: Verdict)

  /** A row with the columns it repeats from its receipt; the payload is emptied when the intent is settled. */
  datatype Row<Op> = Row(digest: Digest<Op>, baseVersion: int, payload: Option<Payload<Op>>, state: State, receipt: Receipt<Op>)

  /** The rows of all scopes, and which finalisers took effect, in order. */
  datatype Journal<Op> = Journal(rows: map<(Scope, string), Row<Op>>, effects: seq<(Scope, string)>)

  datatype JournalError =
    | InvalidIdentity | PayloadTooLarge | InvalidReceipt | NotTerminal
    | PayloadMismatch | PendingExists | TerminalMismatch | NotFound
    | StoredMismatch | StoredPayloadInvalid
    | FinalizerThrew | FinalizerAsynchronous

  datatype FinalizerOutcome = Completed | Threw | ReturnedPromise

  datatype LookedUp<Op> = Known(receipt: Receipt<Op>) | Unknown

  predicate IsOpIdChar(c: char) {
    'A' <= c <= 'Z' || 'a' <= c <= 'z' || '0' <= c <= '9' || c == '_' || c == '-'
  }

  predicate IsVersion(v: int) {
    1 <= v <= MAX_SAFE_INTEGER
  }

  predicate ValidIdentity(opId: string, baseVersion: int) {
    && 1 <= |opId| <= MAX_OP_ID_LENGTH && (forall k :: 0 <= k < |opId| ==> IsOpIdChar(opId[k]))
    && IsVersion(baseVersion) && baseVersion != MAX_SAFE_INTEGER
  }

  predicate ValidReceipt<Op>(r: Receipt<Op>) {
    && ValidIdentity(r.opId, r.baseVersion)
    && (r.verdict.Accepted? ==> r.verdict.version == r.baseVersion + 1)
    && (r.verdict.VersionConflict? ==> IsVersion(r.verdict.headVersion))
  }

  function StateOf(v: Verdict): State {
    match v
    case Undecided => Pending
    case Accepted(_) => Committed
    case _ => Rejected
  }

  /** A stored row's receipt, unless it contradicts the row's own columns. */
  function ReceiptOf<Op(==)>(opId: string, row: Row<Op>): Option<Receipt<Op>> {
    var r := row.receipt;
    if ValidReceipt(r) && r.opId == opId && r.digest == row.digest && r.baseVersion == row.baseVersion && StateOf(r.verdict) == row.state
    then Some(r) else None
  }

  predicate Matches<Op(==)>(r: Receipt<Op>, digest: Digest<Op>, baseVersion: int) {
    r.digest == digest && r.baseVersion == baseVersion
  }

  predicate PendingIn<Op>(rows: map<(Scope, string), Row<Op>>, scope: Scope) {
    exists k :: k in rows && k.0 == scope && rows[k].state == Pending
  }

  function Begin<Op(==)>(size: Payload<Op> -> nat, j: Journal<Op>, scope: Scope, opId: string, p: Payload<Op>)
    : (Journal<Op>, Result<Receipt<Op>, JournalError>)
  {
    var digest := Digest(scope, p);
    if !ValidIdentity(opId, p.baseVersion) then (j, Failure(InvalidIdentity))
    else if size(p) > MAX_COMMIT_PAYLOAD_BYTES then (j, Failure(PayloadTooLarge))
    else if (scope, opId) in j.rows then
      var existing := ReceiptOf(opId, j.rows[(scope, opId)]);
      if existing.None? then (j, Failure(StoredMismatch))
      else if !Matches(existing.value, digest, p.baseVersion) then (j, Failure(PayloadMismatch))
      else (j, Success(existing.value))
    else if PendingIn(j.rows, scope) then (j, Failure(PendingExists))
    else
      var receipt := Receipt(opId, digest, p.baseVersion, Undecided);
      (j.(rows := j.rows[(scope, opId) := Row(digest, p.baseVersion, Some(p), Pending, receipt)]), Success(receipt))
  }

  function Lookup<Op(==)>(j: Journal<Op>, scope: Scope, opId: string, digest: Digest<Op>, baseVersion: int)
    : Result<LookedUp<Op>, JournalError>
  {
    if !ValidIdentity(opId, baseVersion) then Failure(InvalidIdentity)
    else if (scope, opId) !in j.rows then Success(Unknown)
    else
      var existing := ReceiptOf(opId, j.rows[(scope, opId)]);
      if existing.None? then Failure(StoredMismatch)
      else if !Matches(existing.value, digest, baseVersion) then Failure(PayloadMismatch)
      else Success(Known(existing.value))
  }

  function Settle<Op(==)>(j: Journal<Op>, scope: Scope, r: Receipt<Op>, outcome: FinalizerOutcome)
    : (Journal<Op>, Result<Receipt<Op>, JournalError>)
  {
    if !ValidReceipt(r) then (j, Failure(InvalidReceipt))
    else if r.verdict.Undecided? then (j, Failure(NotTerminal))
    else if (scope, r.opId) !in j.rows then (j, Failure(NotFound))
    else
      var row := j.rows[(scope, r.opId)];
      var existing := ReceiptOf(r.opId, row);
      if existing.None? then (j, Failure(StoredMismatch))
      else if !Matches(existing.value, r.digest, r.baseVersion) then (j, Failure(PayloadMismatch))
      else if !existing.value.verdict.Undecided? then
        if existing.value != r then (j, Failure(TerminalMismatch)) else (j, Success(existing.value))
      else
        match outcome
        case Threw => (j, Failure(FinalizerThrew))
        case ReturnedPromise => (j, Failure(FinalizerAsynchronous))
        case Completed =>
          (Journal(j.rows[(scope, r.opId) := row.(state := StateOf(r.verdict), receipt := r, payload := None)],
                   j.effects + [(scope, r.opId)]), Success(r))
  }

  /** What recovering the pending intent of a scope may answer. */
  ghost predicate Recovers<Op(!new)>(size: Payload<Op> -> nat, j: Journal<Op>, scope: Scope,
                                     r: Result<Option<(Receipt<Op>, Payload<Op>)>, JournalError>) {
    if !PendingIn(j.rows, scope) then r == Success(None)
    else exists k :: k in j.rows && k.0 == scope && j.rows[k].state == Pending && r == RecoverRow(size, k, j.rows[k])
  }

  function RecoverRow<Op(==)>(size: Payload<Op> -> nat, key: (Scope, string), row: Row<Op>)
    : Result<Option<(Receipt<Op>, Payload<Op>)>, JournalError>
  {
    var receipt := ReceiptOf(key.1, row);
    if receipt.None? then Failure(StoredMismatch)
    else if row.payload.None? || size(row.payload.value) > MAX_COMMIT_PAYLOAD_BYTES then Failure(StoredPayloadInvalid)
    else if row.payload.value.baseVersion != receipt.value.baseVersion || Digest(key.0, row.payload.value) != receipt.value.digest
    then Failure(StoredPayloadInvalid)
    else Success(Some((receipt.value, row.payload.value)))
  }

  // ---------------------------------------------------------------- what every run keeps

  ghost predicate SoundRow<Op(!new)>(size: Payload<Op> -> nat, key: (Scope, string), row: Row<Op>) {
    && ReceiptOf(key.1, row) == Some(row.receipt)
    && (row.state == Pending <==> row.payload.Some?)
    && (row.payload.Some? ==>
          && row.digest == Digest(key.0, row.payload.value) && row.baseVersion == row.payload.value.baseVersion
          && size(row.payload.value) <= MAX_COMMIT_PAYLOAD_BYTES)
  }

  /** Each settled intent's finaliser took effect once, and no other did. */
  ghost predicate TakenOnce<Op(!new)>(j: Journal<Op>) {
    forall k :: multiset(j.effects)[k] == if k in j.rows && j.rows[k].state != Pending then 1 else 0
  }

  ghost predicate Inv<Op(!new)>(size: Payload<Op> -> nat, j: Journal<Op>) {
    && (forall k :: k in j.rows ==> SoundRow(size, k, j.rows[k]))
    && (forall k, k' :: k in j.rows && k' in j.rows && k.0 == k'.0 && j.rows[k].state == Pending && j.rows[k'].state == Pending ==> k == k')
    && TakenOnce(j)
  }

  /** Intents stay, bound to their digest; settled ones do not change at all. */
  ghost predicate Grows<Op(!new)>(j: Journal<Op>, j': Journal<Op>) {
    && j.effects <= j'.effects
    && forall k :: k in j.rows ==>
         && k in j'.rows && j'.rows[k].digest == j.rows[k].digest && j'.rows[k].baseVersion == j.rows[k].baseVersion
         && (j.rows[k].state != Pending ==> j'.rows[k] == j.rows[k])
  }

  datatype Call<Op> =
    | BeginCall(scope: Scope, opId: string, payload: Payload<Op>)
    | SettleCall(scope: Scope, receipt: Receipt<Op>, outcome: FinalizerOutcome)

  function Step<Op(==)>(size: Payload<Op> -> nat, j: Journal<Op>, c: Call<Op>): Journal<Op> {
    match c
    case BeginCall(scope, opId, p) => Begin(size, j, scope, opId, p).0
    case SettleCall(scope, r, outcome) => Settle(j, scope, r, outcome).0
  }

  /** Lookups and recoveries change nothing, so a run lists the other calls. */
  function Run<Op(==)>(size: Payload<Op> -> nat, j: Journal<Op>, calls: seq<Call<Op>>): Journal<Op> {
    if calls == [] then j else Step(size, Run(size, j, calls[..|calls| - 1]), calls[|calls| - 1])
  }

  lemma BeginKeeps<Op(!new)>(size: Payload<Op> -> nat, j: Journal<Op>, scope: Scope, opId: string, p: Payload<Op>)
    requires Inv(size, j)
    ensures Inv(size, Begin(size, j, scope, opId, p).0) && Grows(j, Begin(size, j, scope, opId, p).0)
  {
    var j' := Begin(size, j, scope, opId, p).0;
    if j' == j { return; }
    var key := (scope, opId);
    var row := j'.rows[key];
    assert j' == j.(rows := j.rows[key := row]);
    assert SoundRow(size, key, row);
    forall k | k in j'.rows && k.0 == scope && j'.rows[k].state == Pending ensures k == key {
      assert !PendingIn(j.rows, scope);
    }
  }

  lemma SettleKeeps<Op(!new)>(size: Payload<Op> -> nat, j: Journal<Op>, scope: Scope, r: Receipt<Op>, outcome: FinalizerOutcome)
    requires Inv(size, j)
    ensures Inv(size, Settle(j, scope, r, outcome).0) && Grows(j, Settle(j, scope, r, outcome).0)
  {
    var key := (scope, r.opId);
    if Settle(j, scope, r, outcome).0 != j {
      assert SoundRow(size, key, j.rows[key]);
    }
  }

  lemma {:induction false} RunKeeps<Op(!new)>(size: Payload<Op> -> nat, j: Journal<Op>, calls: seq<Call<Op>>)
    requires Inv(size, j)
    ensures Inv(size, Run(size, j, calls)) && Grows(j, Run(size, j, calls))
  {
    if calls != [] {
      RunKeeps(size, j, calls[..|calls| - 1]);
      var before := Run(size, j, calls[..|calls| - 1]);
      match calls[|calls| - 1]
      case BeginCall(scope, opId, p) => BeginKeeps(size, before, scope, opId, p);
      case SettleCall(scope, r, outcome) => SettleKeeps(size, before, scope, r, outcome);
    }
  }

  function Empty<Op>(): Journal<Op> { Journal(map[], []) }

  /** Over any run: one pending intent per scope, and each finaliser takes effect once if its intent is settled, else never. */
  lemma {:induction false} FinalisersRunExactlyOnce<Op(!new)>(size: Payload<Op> -> nat, calls: seq<Call<Op>>, k: (Scope, string), k': (Scope, string))
    ensures var j := Run(size, Empty(), calls);
      && multiset(j.effects)[k] == (if k in j.rows && j.rows[k].state != Pending then 1 else 0)
      && (k in j.rows && k' in j.rows && k.0 == k'.0 && j.rows[k].state == Pending && j.rows[k'].state == Pending ==> k == k')
  {
    RunKeeps(size, Empty(), calls);
  }

  /** A settled receipt is what every later lookup with its identity answers, whatever happened since. */
  lemma {:induction false} SettledReceiptsStay<Op(!new)>(size: Payload<Op> -> nat, earlier: seq<Call<Op>>, later: seq<Call<Op>>,
                                      scope: Scope, r: Receipt<Op>, outcome: FinalizerOutcome)
    requires Settle(Run(size, Empty(), earlier), scope, r, outcome).1.Success?
    ensures var j := Run(size, Settle(Run(size, Empty(), earlier), scope, r, outcome).0, later);
      && Lookup(j, scope, r.opId, r.digest, r.baseVersion) == Success(Known(r))
      && forall r': Receipt<Op>, o :: r'.opId == r.opId ==>
           Settle(j, scope, r', o).0 == j && (Settle(j, scope, r', o).1.Success? <==> r' == r)
  {
    RunKeeps(size, Empty(), earlier);
    var j0 := Run(size, Empty(), earlier);
    assert SoundRow(size, (scope, r.opId), j0.rows[(scope, r.opId)]);
    SettleKeeps(size, j0, scope, r, outcome);
    var j1 := Settle(j0, scope, r, outcome).0;
    assert j1.rows[(scope, r.opId)].receipt == r && j1.rows[(scope, r.opId)].state != Pending;
    RunKeeps(size, j1, later);
    var j := Run(size, j1, later);
    assert SoundRow(size, (scope, r.opId), j.rows[(scope, r.opId)]);
    SettledRowAnswers(j, scope, r);
  }

  lemma SettledRowAnswers<Op(!new)>(j: Journal<Op>, scope: Scope, r: Receipt<Op>)
    requires (scope, r.opId) in j.rows && ReceiptOf(r.opId, j.rows[(scope, r.opId)]) == Some(r) && !r.verdict.Undecided?
    ensures Lookup(j, scope, r.opId, r.digest, r.baseVersion) == Success(Known(r))
    ensures forall r': Receipt<Op>, o :: r'.opId == r.opId ==>
              Settle(j, scope, r', o).0 == j && (Settle(j, scope, r', o).1.Success? <==> r' == r)
  {
  }

  /** An operation id belongs to its first payload: later begins succeed with that payload and fail with any other. */
  lemma {:induction false} OperationsKeepTheirPayload<Op(!new)>(size: Payload<Op> -> nat, earlier: seq<Call<Op>>, later: seq<Call<Op>>,
                                             scope: Scope, opId: string, p: Payload<Op>, p': Payload<Op>)
    requires Begin(size, Run(size, Empty(), earlier), scope, opId, p).1.Success?
    requires ValidIdentity(opId, p'.baseVersion) && size(p') <= MAX_COMMIT_PAYLOAD_BYTES
    ensures var j := Run(size, Begin(size, Run(size, Empty(), earlier), scope, opId, p).0, later);
      && Begin(size, j, scope, opId, p').0 == j && (scope, opId) in j.rows
      && (p' == p ==> Begin(size, j, scope, opId, p').1 == Success(j.rows[(scope, opId)].receipt))
      && (p' != p ==> Begin(size, j, scope, opId, p').1 == Failure(PayloadMismatch))
  {
    RunKeeps(size, Empty(), earlier);
    var j0 := Run(size, Empty(), earlier);
    BeginKeeps(size, j0, scope, opId, p);
    var j1 := Begin(size, j0, scope, opId, p).0;
    assert j1.rows[(scope, opId)].digest == Digest(scope, p);
    RunKeeps(size, j1, later);
    var j := Run(size, j1, later);
    assert SoundRow(size, (scope, opId), j.rows[(scope, opId)]);
  }

  /** Recovery never finds its stored intent damaged: it returns the payload whose digest the receipt carries. */
  lemma {:induction false} RecoveryIsFaithful<Op(!new)>(size: Payload<Op> -> nat, calls: seq<Call<Op>>, scope: Scope,
                                     r: Result<Option<(Receipt<Op>, Payload<Op>)>, JournalError>)
    requires Recovers(size, Run(size, Empty(), calls), scope, r)
    ensures r.Success? && (r.value.Some? <==> PendingIn(Run(size, Empty(), calls).rows, scope))
    ensures r.value.Some? ==>
      var (receipt, p) := r.value.value;
      && receipt.digest == Digest(scope, p) && receipt.baseVersion == p.baseVersion && receipt.verdict == Undecided
      && Begin(size, Run(size, Empty(), calls), scope, receipt.opId, p).1 == Success(receipt)
  {
    RunKeeps(size, Empty(), calls);
    var j := Run(size, Empty(), calls);
    if PendingIn(j.rows, scope) {
      var k :| k in j.rows && k.0 == scope && j.rows[k].state == Pending && r == RecoverRow(size, k, j.rows[k]);
      assert SoundRow(size, k, j.rows[k]);
      assert k == (scope, k.1);
    }
  }

  // ---------------------------------------------------------------- what each call does to a reachable journal

  predicate PendingRowOf<Op>(j: Journal<Op>, k: (Scope, string)) {
    k in j.rows && j.rows[k].state == Pending
  }

  /** The receipt decides an intent of this scope that is pending under its identity. */
  predicate Decides<Op(==)>(j: Journal<Op>, scope: Scope, r: Receipt<Op>) {
    && PendingRowOf(j, (scope, r.opId)) && ValidReceipt(r) && r.verdict != Undecided
    && j.rows[(scope, r.opId)].digest == r.digest && j.rows[(scope, r.opId)].baseVersion == r.baseVersion
  }

  /** Only this intent changed: it is committed or rejected as the receipt says and its payload is gone. */
  predicate SettledAs<Op(==)>(j: Journal<Op>, j': Journal<Op>, scope: Scope, r: Receipt<Op>) {
    var k := (scope, r.opId);
    && j'.effects == j.effects + [k] && j'.rows.Keys == j.rows.Keys && k in j.rows
    && (forall o :: o in j.rows && o != k ==> j'.rows[o] == j.rows[o])
    && j'.rows[k].receipt == r && j'.rows[k].payload.None? && (j'.rows[k].state == Committed <==> r.verdict.Accepted?)
    && j'.rows[k].state != Pending && j'.rows[k].digest == j.rows[k].digest && j'.rows[k].baseVersion == j.rows[k].baseVersion
  }

  /** How a settlement ends, by the row it finds and by what its finaliser does. */
  ghost predicate SettleEnds<Op(!new)>(j: Journal<Op>, scope: Scope, r: Receipt<Op>, outcome: FinalizerOutcome,
                                       j': Journal<Op>, answer: Result<Receipt<Op>, JournalError>) {
    var k := (scope, r.opId);
    if Decides(j, scope, r) then
      && (answer.Success? <==> outcome == Completed)
      && (outcome == Completed ==> answer == Success(r) && SettledAs(j, j', scope, r))
      && (outcome == Threw ==> answer == Failure(FinalizerThrew) && j' == j)
      && (outcome == ReturnedPromise ==> answer == Failure(FinalizerAsynchronous) && j' == j)
    else
      && j' == j
      && (answer.Success? <==> k in j.rows && j.rows[k].state != Pending && j.rows[k].receipt == r)
      && (answer.Success? ==> answer == Success(r))
      && (k in j.rows && ValidReceipt(r) && r.verdict != Undecided && !answer.Success? ==>
            answer.error == if j.rows[k].digest == r.digest && j.rows[k].baseVersion == r.baseVersion then TerminalMismatch else PayloadMismatch)
      && (k !in j.rows && ValidReceipt(r) && r.verdict != Undecided ==> answer == Failure(NotFound))
  }

  /** A receipt that can be stored: of an acceptable identity, accepted as the very next version or in conflict with a version there can be. */
  predicate Storable<Op>(r: Receipt<Op>) {
    && ValidIdentity(r.opId, r.baseVersion)
    && match r.verdict
       case Accepted(v) => v - 1 == r.baseVersion
       case VersionConflict(head) => 0 < head && head < MAX_SAFE_INTEGER + 1
       case _ => true
  }

  /** Receipts that cannot be stored, or that decide nothing, settle nothing. */
  lemma UnfitReceiptsAreRefused<Op(!new)>(j: Journal<Op>, scope: Scope, r: Receipt<Op>, outcome: FinalizerOutcome)
    ensures !Storable(r) ==> Settle(j, scope, r, outcome) == (j, Failure(InvalidReceipt))
    ensures Storable(r) && r.verdict == Undecided ==> Settle(j, scope, r, outcome) == (j, Failure(NotTerminal))
    ensures Storable(r) && r.verdict != Undecided && (scope, r.opId) !in j.rows ==> Settle(j, scope, r, outcome) == (j, Failure(NotFound))
  {
  }

  /** Nothing in a row contradicts its receipt. */
  predicate Consistent<Op(==)>(opId: string, row: Row<Op>) {
    && Storable(row.receipt) && row.receipt.opId == opId && row.receipt.digest == row.digest && row.receipt.baseVersion == row.baseVersion
    && match row.receipt.verdict
       case Undecided => row.state == Pending
       case Accepted(_) => row.state == Committed
       case _ => row.state == Rejected
  }

  /** Whatever is stored, a row that contradicts its receipt is reported by every call that reads it, and changed by none. */
  lemma DamageIsReported<Op(!new)>(size: Payload<Op> -> nat, j: Journal<Op>, scope: Scope, opId: string, p: Payload<Op>,
                                   digest: Digest<Op>, base: int, r: Receipt<Op>, outcome: FinalizerOutcome)
    requires (scope, opId) in j.rows && !Consistent(opId, j.rows[(scope, opId)])
    ensures ValidIdentity(opId, p.baseVersion) && size(p) <= MAX_COMMIT_PAYLOAD_BYTES ==>
              Begin(size, j, scope, opId, p) == (j, Failure(StoredMismatch))
    ensures ValidIdentity(opId, base) ==> Lookup(j, scope, opId, digest, base) == Failure(StoredMismatch)
    ensures r.opId == opId && Storable(r) && r.verdict != Undecided ==> Settle(j, scope, r, outcome) == (j, Failure(StoredMismatch))
    ensures RecoverRow(size, (scope, opId), j.rows[(scope, opId)]) == Failure(StoredMismatch)
  {
  }

  /** Recovery hands out exactly what a consistent row holds, if its payload is there, small enough and the one of its digest. */
  lemma RecoveryIsExact<Op(!new)>(size: Payload<Op> -> nat, key: (Scope, string), row: Row<Op>)
    requires Consistent(key.1, row)
    ensures var fit := row.payload.Some? && size(row.payload.value) <= MAX_COMMIT_PAYLOAD_BYTES
                       && row.digest == Digest(key.0, row.payload.value) && row.baseVersion == row.payload.value.baseVersion;
      RecoverRow(size, key, row) == if fit then Success(Some((row.receipt, row.payload.value))) else Failure(StoredPayloadInvalid)
  {
  }

  /** In every reachable journal a settlement takes effect exactly if it decides a pending intent and its finaliser completes. */
  lemma {:induction false} SettlingEnds<Op(!new)>(size: Payload<Op> -> nat, calls: seq<Call<Op>>, scope: Scope, r: Receipt<Op>, outcome: FinalizerOutcome)
    ensures var j := Run(size, Empty(), calls); var (j', answer) := Settle(j, scope, r, outcome);
      SettleEnds(j, scope, r, outcome, j', answer)
  {
    RunKeeps(size, Empty(), calls);
    SoundSettleEnds(size, Run(size, Empty(), calls), scope, r, outcome);
  }

  lemma SoundSettleEnds<Op(!new)>(size: Payload<Op> -> nat, j: Journal<Op>, scope: Scope, r: Receipt<Op>, outcome: FinalizerOutcome)
    requires Inv(size, j)
    ensures var (j', answer) := Settle(j, scope, r, outcome); SettleEnds(j, scope, r, outcome, j', answer)
  {
    if (scope, r.opId) in j.rows {
      assert SoundRow(size, (scope, r.opId), j.rows[(scope, r.opId)]);
    }
  }

  /** How a begin ends: an acceptable request is recorded exactly if its id is new and its scope has nothing pending. */
  ghost predicate BeginEnds<Op(!new)>(j: Journal<Op>, scope: Scope, opId: string, p: Payload<Op>,
                                      j': Journal<Op>, answer: Result<Receipt<Op>, JournalError>) {
    var k := (scope, opId);
    if k in j.rows then
      j' == j && answer == if j.rows[k].digest == Digest(scope, p) then Success(j.rows[k].receipt) else Failure(PayloadMismatch)
    else if exists o :: PendingRowOf(j, o) && o.0 == scope then j' == j && answer == Failure(PendingExists)
    else
      && answer == Success(Receipt(opId, Digest(scope, p), p.baseVersion, Undecided))
      && j'.effects == j.effects && j'.rows.Keys == j.rows.Keys + {k} && (forall o :: o in j.rows ==> j'.rows[o] == j.rows[o])
      && PendingRowOf(j', k) && j'.rows[k].payload == Some(p) && j'.rows[k].receipt == answer.value
  }

  lemma {:induction false} BeginningEnds<Op(!new)>(size: Payload<Op> -> nat, calls: seq<Call<Op>>, scope: Scope, opId: string, p: Payload<Op>)
    ensures var j := Run(size, Empty(), calls); var (j', answer) := Begin(size, j, scope, opId, p);
      && (!ValidIdentity(opId, p.baseVersion) ==> j' == j && answer == Failure(InvalidIdentity))
      && (ValidIdentity(opId, p.baseVersion) && size(p) > MAX_COMMIT_PAYLOAD_BYTES ==> j' == j && answer == Failure(PayloadTooLarge))
      && (ValidIdentity(opId, p.baseVersion) && size(p) <= MAX_COMMIT_PAYLOAD_BYTES ==> BeginEnds(j, scope, opId, p, j', answer))
  {
    RunKeeps(size, Empty(), calls);
    var j := Run(size, Empty(), calls);
    if (scope, opId) in j.rows {
      assert SoundRow(size, (scope, opId), j.rows[(scope, opId)]);
      DigestHasBase(size, calls, (scope, opId));
    }
    if PendingIn(j.rows, scope) {
      var o :| o in j.rows && o.0 == scope && j.rows[o].state == Pending;
      assert PendingRowOf(j, o);
    }
  }

  /** The digest of a row is of its scope and of a payload with its base version. */
  lemma {:induction false} DigestHasBase<Op(!new)>(size: Payload<Op> -> nat, calls: seq<Call<Op>>, k: (Scope, string))
    requires k in Run(size, Empty(), calls).rows
    ensures var row := Run(size, Empty(), calls).rows[k]; row.digest.scope == k.0 && row.digest.payload.baseVersion == row.baseVersion
  {
    if calls != [] {
      var earlier, c := calls[..|calls| - 1], calls[|calls| - 1];
      var j := Run(size, Empty(), earlier);
      if k in j.rows {
        DigestHasBase(size, earlier, k);
        RunKeeps(size, Empty(), earlier);
        match c
        case BeginCall(scope, opId, p) => BeginKeeps(size, j, scope, opId, p);
        case SettleCall(scope, r, outcome) => SettleKeeps(size, j, scope, r, outcome);
      }
    }
  }

  /** A lookup knows exactly the operations of its scope that were begun, and answers their receipt to their own identity only. */
  lemma {:induction false} LookingUpEnds<Op(!new)>(size: Payload<Op> -> nat, calls: seq<Call<Op>>, scope: Scope, opId: string, digest: Digest<Op>, base: int)
    ensures !ValidIdentity(opId, base) ==> Lookup(Run(size, Empty(), calls), scope, opId, digest, base) == Failure(InvalidIdentity)
    ensures ValidIdentity(opId, base) ==>
      var j := Run(size, Empty(), calls); var answer := Lookup(j, scope, opId, digest, base);
      && (answer == Success(Unknown) <==> (scope, opId) !in j.rows)
      && ((scope, opId) in j.rows ==>
            var row := j.rows[(scope, opId)];
            answer == if row.digest == digest && row.baseVersion == base then Success(Known(row.receipt)) else Failure(PayloadMismatch))
  {
    RunKeeps(size, Empty(), calls);
    var j := Run(size, Empty(), calls);
    if (scope, opId) in j.rows {
      assert SoundRow(size, (scope, opId), j.rows[(scope, opId)]);
    }
  }

  /** A settlement whose finaliser completed and that found its intent pending under its identity. */
  ghost predicate TookEffect<Op(!new)>(size: Payload<Op> -> nat, calls: seq<Call<Op>>, i: int, k: (Scope, string)) {
    && 0 <= i < |calls| && calls[i].SettleCall? && (calls[i].scope, calls[i].receipt.opId) == k && calls[i].outcome == Completed
    && Decides(Run(size, Empty(), calls[..i]), calls[i].scope, calls[i].receipt)
  }

  predicate SettledWith<Op(==)>(j: Journal<Op>, k: (Scope, string), r: Receipt<Op>) {
    k in j.rows && j.rows[k].state != Pending && j.rows[k].receipt == r
  }

  predicate IsSettled<Op>(j: Journal<Op>, k: (Scope, string)) {
    k in j.rows && j.rows[k].state != Pending
  }

  /** The call settles this intent. */
  ghost predicate Decisive<Op(!new)>(j: Journal<Op>, c: Call<Op>, k: (Scope, string)) {
    c.SettleCall? && (c.scope, c.receipt.opId) == k && c.outcome == Completed && Decides(j, c.scope, c.receipt)
  }

  /** What a call does to one intent: it is settled by a decisive call and by nothing else, and then stays. */
  ghost predicate Moves<Op(!new)>(j: Journal<Op>, c: Call<Op>, j': Journal<Op>, k: (Scope, string)) {
    && (IsSettled(j', k) <==> IsSettled(j, k) || Decisive(j, c, k))
    && (Decisive(j, c, k) ==> SettledWith(j', k, c.receipt))
    && (IsSettled(j, k) ==> j'.rows[k] == j.rows[k])
  }

  lemma SettleSettles<Op(!new)>(size: Payload<Op> -> nat, j: Journal<Op>, scope: Scope, r: Receipt<Op>, outcome: FinalizerOutcome, k: (Scope, string))
    requires Inv(size, j)
    ensures Moves(j, SettleCall(scope, r, outcome), Settle(j, scope, r, outcome).0, k)
  {
    SoundSettleEnds(size, j, scope, r, outcome);
  }

  lemma StepMoves<Op(!new)>(size: Payload<Op> -> nat, j: Journal<Op>, c: Call<Op>, k: (Scope, string))
    requires Inv(size, j)
    ensures Moves(j, c, Step(size, j, c), k)
  {
    match c
    case BeginCall(scope, opId, p) =>
    case SettleCall(scope, r, outcome) => SettleSettles(size, j, scope, r, outcome, k);
  }

  lemma {:induction false} EffectBefore<Op(!new)>(size: Payload<Op> -> nat, calls: seq<Call<Op>>, i: int, k: (Scope, string))
    requires 0 <= i < |calls| - 1
    ensures TookEffect(size, calls, i, k) <==> TookEffect(size, calls[..|calls| - 1], i, k)
  {
    assert calls[..|calls| - 1][..i] == calls[..i];
  }

  lemma {:induction false} EffectsSettle<Op(!new)>(size: Payload<Op> -> nat, calls: seq<Call<Op>>, i: int, k: (Scope, string))
    requires TookEffect(size, calls, i, k)
    ensures SettledWith(Run(size, Empty(), calls), k, calls[i].receipt)
  {
    var last := |calls| - 1;
    var j := Run(size, Empty(), calls[..last]);
    RunKeeps(size, Empty(), calls[..last]);
    StepMoves(size, j, calls[last], k);
    if i < last {
      EffectBefore(size, calls, i, k);
      EffectsSettle(size, calls[..last], i, k);
    }
  }

  lemma {:induction false} SettledByEffect<Op(!new)>(size: Payload<Op> -> nat, calls: seq<Call<Op>>, k: (Scope, string)) returns (i: int)
    requires IsSettled(Run(size, Empty(), calls), k)
    ensures TookEffect(size, calls, i, k)
  {
    var last := |calls| - 1;
    var j := Run(size, Empty(), calls[..last]);
    RunKeeps(size, Empty(), calls[..last]);
    StepMoves(size, j, calls[last], k);
    if IsSettled(j, k) {
      i := SettledByEffect(size, calls[..last], k);
      EffectBefore(size, calls, i, k);
    } else {
      i := last;
    }
  }

  /** An intent is settled, and its finaliser's effect in the journal, if and only if such a settlement took place, with its receipt. */
  lemma {:induction false} EffectsAreCompletedSettlements<Op(!new)>(size: Payload<Op> -> nat, calls: seq<Call<Op>>, k: (Scope, string))
    ensures var j := Run(size, Empty(), calls);
      && (k in j.effects <==> exists i :: TookEffect(size, calls, i, k))
      && (k in j.effects <==> IsSettled(j, k))
      && (forall i :: TookEffect(size, calls, i, k) ==> SettledWith(j, k, calls[i].receipt))
  {
    if IsSettled(Run(size, Empty(), calls), k) {
      var i := SettledByEffect(size, calls, k);
    }
    forall i | TookEffect(size, calls, i, k) ensures SettledWith(Run(size, Empty(), calls), k, calls[i].receipt) {
      EffectsSettle(size, calls, i, k);
    }
    FinalisersRunExactlyOnce(size, calls, k, k);
    assert k in Run(size, Empty(), calls).effects <==> multiset(Run(size, Empty(), calls).effects)[k] > 0;
  }
}

module CommitJournals {
  import opened Wrappers
  import opened CommitTables

  class JournalStorage<Op(==)> {
    var rows: map<(Scope, string), Row<Op>>
    var effects: seq<(Scope, string)>

    function Contents(): Journal<Op>
      reads this
    {
      Journal(rows, effects)
    }

    constructor ()
      ensures Contents() == Empty()
    {
      rows, effects := map[], [];
    }
  }

  class SqliteCommitJournal<Op(==, !new)> {
    const storage: JournalStorage<Op>
    const scope: Scope
    const size: Payload<Op> -> nat

    constructor (storage: JournalStorage<Op>, scope: Scope, size: Payload<Op> -> nat)
      ensures this.storage == storage && this.scope == scope && this.size == size
    {
      this.storage, this.scope, this.size := storage, scope, size;
    }

    method Read(opId: string) returns (r: Result<Option<Receipt<Op>>, JournalError>)
      ensures r == if (scope, opId) !in storage.rows then Success(None)
                   else var e := ReceiptOf(opId, storage.rows[(scope, opId)]);
                     if e.None? then Failure(StoredMismatch) else Success(e)
    {
      if (scope, opId) !in storage.rows { return Success(None); }
      var receipt := ReceiptOf(opId, storage.rows[(scope, opId)]);
      if receipt.None? { return Failure(StoredMismatch); }
      return Success(receipt);
    }

    /** The row that the partial unique index lets a scope have. */
    method PendingRow() returns (key: Option<(Scope, string)>)
      ensures key.None? <==> !PendingIn(storage.rows, scope)
      ensures key.Some? ==> key.value in storage.rows && key.value.0 == scope && storage.rows[key.value].state == Pending
    {
      var rest := storage.rows.Keys;
      while rest != {}
        invariant rest <= storage.rows.Keys
        invariant forall k :: k in storage.rows && k !in rest ==> !(k.0 == scope && storage.rows[k].state == Pending)
        decreases rest
      {
        var k := Pick(rest);
        if k.0 == scope && storage.rows[k].state == Pending { return Some(k); }
        rest := rest - {k};
      }
      return None;
    }

    method Begin(opId: string, payload: Payload<Op>) returns (r: Result<Receipt<Op>, JournalError>)
      modifies storage`rows
      ensures (storage.Contents(), r) == CommitTables.Begin(size, old(storage.Contents()), scope, opId, payload)
    {
      if !ValidIdentity(opId, payload.baseVersion) { return Failure(InvalidIdentity); }
      if size(payload) > MAX_COMMIT_PAYLOAD_BYTES { return Failure(PayloadTooLarge); }
      var digest := Digest(scope, payload);
      var existing := Read(opId);
      if existing.Failure? { return Failure(existing.error); }
      if existing.value.Some? {
        if !Matches(existing.value.value, digest, payload.baseVersion) { return Failure(PayloadMismatch); }
        return Success(existing.value.value);
      }
      var pending := PendingRow();
      if pending.Some? { return Failure(PendingExists); }
      var receipt := Receipt(opId, digest, payload.baseVersion, Undecided);
      storage.rows := storage.rows[(scope, opId) := Row(digest, payload.baseVersion, Some(payload), Pending, receipt)];
      return Success(receipt);
    }

    method Lookup(opId: string, digest: Digest<Op>, baseVersion: int) returns (r: Result<LookedUp<Op>, JournalError>)
      ensures r == CommitTables.Lookup(storage.Contents(), scope, opId, digest, baseVersion)
    {
      if !ValidIdentity(opId, baseVersion) { return Failure(InvalidIdentity); }
      var existing := Read(opId);
      if existing.Failure? { return Failure(existing.error); }
      if existing.value.None? { return Success(Unknown); }
      if !Matches(existing.value.value, digest, baseVersion) { return Failure(PayloadMismatch); }
      return Success(Known(existing.value.value));
    }

    method RecoverPending() returns (r: Result<Option<(Receipt<Op>, Payload<Op>)>, JournalError>)
      ensures Recovers(size, storage.Contents(), scope, r)
    {
      var key := PendingRow();
      if key.None? { return Success(None); }
      var row := storage.rows[key.value];
      var receipt := ReceiptOf(key.value.1, row);
      if receipt.None? { return Failure(StoredMismatch); }
      if row.payload.None? { return Failure(StoredPayloadInvalid); }
      var payload := row.payload.value;
      if size(payload) > MAX_COMMIT_PAYLOAD_BYTES { return Failure(StoredPayloadInvalid); }
      if payload.baseVersion != receipt.value.baseVersion || Digest(scope, payload) != receipt.value.digest {
        return Failure(StoredPayloadInvalid);
      }
      return Success(Some((receipt.value, payload)));
    }

    /** The finaliser's effect and the row's update commit together, or a failing finaliser undoes both. */
    method Settle(result: Receipt<Op>, outcome: FinalizerOutcome) returns (r: Result<Receipt<Op>, JournalError>)
      modifies storage
      ensures (storage.Contents(), r) == CommitTables.Settle(old(storage.Contents()), scope, result, outcome)
    {
      if !ValidReceipt(result) { return Failure(InvalidReceipt); }
      if result.verdict.Undecided? { return Failure(NotTerminal); }
      var before := storage.effects;
      var existing := Read(result.opId);
      if existing.Failure? { return Failure(existing.error); }
      if existing.value.None? { return Failure(NotFound); }
      if !Matches(existing.value.value, result.digest, result.baseVersion) { return Failure(PayloadMismatch); }
      if !existing.value.value.verdict.Undecided? {
        if existing.value.value != result { return Failure(TerminalMismatch); }
        return Success(existing.value.value);
      }
      storage.effects := storage.effects + [(scope, result.opId)];
      if outcome == Threw {
        storage.effects := before;
        return Failure(FinalizerThrew);
      }
      if outcome == ReturnedPromise {
        storage.effects := before;
        return Failure(FinalizerAsynchronous);
      }
      var row := storage.rows[(scope, result.opId)];
      storage.rows := storage.rows[(scope, result.opId) :=
                        row.(state := StateOf(result.verdict), receipt := result, payload := None)];
      return Success(result);
    }
  }
}
