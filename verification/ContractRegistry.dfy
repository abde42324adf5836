/**
 * The contract registry of the portal: contracts appended to a document type and its settings changed
 * by optimistic writes of the same row, each batch guarded by authority, by an idempotency receipt and
 * by what its writer had read.
 *
 * Primary keys and unique indexes are those of the schema migrations. Entity tags, contract hashes and
 * fingerprints are digests of what they are taken over and are modelled by it.
 */
module RegistryTables {
  import opened Wrappers

  const MAX_ATTEMPTS := 16

  datatype Settings = Settings(
    internalName: string, enabled: bool, typeCardBundle: Option<string>, viewBundle: Option<string>, builtinOperator: Option<string>)

  /** The fields an update names; the others keep the value that was read. Only the operator can be taken away. */
  datatype Patch = Patch(
    internalName: Option<string>, enabled: Option<bool>, typeCardBundle: Option<string>, viewBundle: Option<string>,
    builtinOperator: Option<Option<string>>)

  datatype ContractRecord = ContractRecord(documentType: string, idx: int, contract: string, createdAt: int)
  datatype Registration = Registration(documentType: string, settings: Settings, latest: Option<ContractRecord>, updatedAt: int)
  datatype Etag = Etag(of: Registration)

  datatype TypeRow = TypeRow(lastIdx: int, registration: Registration)
  datatype ContractRow = ContractRow(contract: string, record: ContractRecord)

  datatype Operation = AppendDocumentContract | UpdateDocumentType
  datatype ReceiptKey = ReceiptKey(actor: string, operation: Operation, key: string)
  datatype Fingerprint =
    | AppendOf(documentType: string, contract: string, reason: string)
    | UpdateOf(documentType: string, patch: Patch, expected: Etag)
  datatype Response = AppendedAt(idx: int, contract: string) | UpdatedTo(documentType: string, etag: Etag)
  datatype Receipt = Receipt(fingerprint: Fingerprint, response: Response)

  datatype Command =
    | Append(actor: string, key: string, documentType: string, contract: string, reason: string, occurredAt: int)
    | Update(actor: string, key: string, documentType: string, patch: Patch, expected: Etag, occurredAt: int)

  /** One committed write of a type's row: by which call, computed from what, over what, giving what. */
  datatype Event = Event(writer: nat, command: Command, seen: TypeRow, replaced: Registration, stored: Registration)

  datatype Registry = Registry(
    active: set<string>,
    types: map<string, TypeRow>,
    contracts: map<(string, int), ContractRow>,
    receipts: map<ReceiptKey, Receipt>,
    history: seq<Event>)

  function KeyOf(c: Command): ReceiptKey {
    ReceiptKey(c.actor, if c.Append? then AppendDocumentContract else UpdateDocumentType, c.key)
  }

  function FingerprintOf(c: Command): Fingerprint {
    if c.Append? then AppendOf(c.documentType, c.contract, c.reason) else UpdateOf(c.documentType, c.patch, c.expected)
  }

  function NewRecord(c: Command, lastIdx: int): ContractRecord
    requires c.Append?
  {
    ContractRecord(c.documentType, lastIdx + 1, c.contract, c.occurredAt)
  }

  /** The registration a command stores, computed from the row it read. */
  function Built(c: Command, seen: TypeRow): Registration {
    match c
    case Append(_, _, _, _, _, at) => seen.registration.(latest := Some(NewRecord(c, seen.lastIdx)), updatedAt := at)
    case Update(_, _, t, p, _, at) =>
      var s := seen.registration.settings;
      Registration(t, Settings(if p.internalName.Some? then p.internalName.value else s.internalName,
                               if p.enabled.Some? then p.enabled.value else s.enabled,
                               if p.typeCardBundle.Some? then p.typeCardBundle else s.typeCardBundle,
                               if p.viewBundle.Some? then p.viewBundle else s.viewBundle,
                               if p.builtinOperator.Some? then p.builtinOperator.value else s.builtinOperator),
                   seen.registration.latest, at)
  }

  /** What an enabled type must have. */
  predicate Complete(r: Registration) {
    r.settings.enabled ==>
      r.latest.Some? && r.settings.typeCardBundle.Some? && r.settings.viewBundle.Some? && r.settings.builtinOperator.Some?
  }

  function ResponseTo(c: Command, seen: TypeRow): Response {
    if c.Append? then AppendedAt(seen.lastIdx + 1, c.contract) else UpdatedTo(c.documentType, Etag(Built(c, seen)))
  }

  predicate ContractTaken(r: Registry, documentType: string, contract: string) {
    exists k :: k in r.contracts && k.0 == documentType && r.contracts[k].contract == contract
  }

  /** The row is still what the conditional update names: an append its whole reading, an update the tag its caller sent. */
  predicate RowMatches(c: Command, seen: TypeRow, row: TypeRow) {
    if c.Append? then row.lastIdx == seen.lastIdx && Etag(row.registration) == Etag(seen.registration)
    else Etag(row.registration) == c.expected
  }

  /** Every statement of the batch goes through. */
  predicate BatchHolds(r: Registry, c: Command, seen: TypeRow) {
    && c.actor in r.active && KeyOf(c) !in r.receipts
    && c.documentType in r.types && RowMatches(c, seen, r.types[c.documentType])
    && (c.Append? ==> (c.documentType, seen.lastIdx + 1) !in r.contracts && seen.lastIdx + 1 >= 0
                      && !ContractTaken(r, c.documentType, c.contract))
  }

  function Batch(r: Registry, writer: nat, c: Command, seen: TypeRow): Registry {
    if !BatchHolds(r, c, seen) then r
    else
      var row, t := r.types[c.documentType], c.documentType;
      var stored := Built(c, seen);
      Registry(r.active,
               r.types[t := TypeRow(if c.Append? then seen.lastIdx + 1 else row.lastIdx, stored)],
               if c.Append? then r.contracts[(t, seen.lastIdx + 1) := ContractRow(c.contract, NewRecord(c, seen.lastIdx))] else r.contracts,
               r.receipts[KeyOf(c) := Receipt(FingerprintOf(c), ResponseTo(c, seen))],
               r.history + [Event(writer, c, seen, row.registration, stored)])
  }

  function CreateType(r: Registry, t: string, name: string, at: int): Registry {
    if t in r.types then r
    else r.(types := r.types[t := TypeRow(-1, Registration(t, Settings(name, false, None, None, None), None, at))])
  }

  function WritesTo(history: seq<Event>, t: string): nat {
    if history == [] then 0
    else WritesTo(history[..|history| - 1], t) + if history[|history| - 1].command.documentType == t then 1 else 0
  }

  // ---------------------------------------------------------------- what every write keeps

  /** Indices are exactly 0 up to the last, each under its own number, and a contract appears once. */
  ghost predicate ContractsExact(r: Registry) {
    && (forall t :: t in r.types ==> r.types[t].lastIdx >= -1 && r.types[t].registration.documentType == t && Complete(r.types[t].registration))
    && (forall t, i :: (t, i) in r.contracts <==> t in r.types && 0 <= i <= r.types[t].lastIdx)
    && (forall k :: k in r.contracts ==>
          r.contracts[k].record.documentType == k.0 && r.contracts[k].record.idx == k.1 && r.contracts[k].record.contract == r.contracts[k].contract)
    && (forall k, k' :: k in r.contracts && k' in r.contracts && k.0 == k'.0 && r.contracts[k].contract == r.contracts[k'].contract ==> k == k')
  }

  /** An event stored what its command builds from what it had read, left its receipt, and replaced what its condition names. */
  ghost predicate EventSound(r: Registry, e: Event) {
    && KeyOf(e.command) in r.receipts
    && r.receipts[KeyOf(e.command)] == Receipt(FingerprintOf(e.command), ResponseTo(e.command, e.seen))
    && e.stored == Built(e.command, e.seen)
    && (e.command.Append? ==> e.seen.registration == e.replaced)
    && (e.command.Update? ==> Etag(e.replaced) == e.command.expected)
  }

  ghost predicate EventsSound(r: Registry) {
    forall i :: 0 <= i < |r.history| ==> EventSound(r, r.history[i])
  }

  ghost predicate KeysOnce(history: seq<Event>) {
    forall i, j :: 0 <= i < j < |history| ==> KeyOf(history[i].command) != KeyOf(history[j].command)
  }

  ghost predicate HasEvent(history: seq<Event>, k: ReceiptKey) {
    exists i :: 0 <= i < |history| && KeyOf(history[i].command) == k
  }

  /** Every event left its receipt, every receipt has its event, and no key has two. */
  ghost predicate EventsMatchReceipts(r: Registry) {
    EventsSound(r) && KeysOnce(r.history) && forall k :: k in r.receipts ==> HasEvent(r.history, k)
  }

  function LatestAt(r: Registry, t: string, i: int): Option<ContractRecord> {
    if (t, i) in r.contracts then Some(r.contracts[(t, i)].record) else None
  }

  /** The index of the contract a registration names, before the first one if it names none. */
  function IndexOf(g: Registration): int {
    if g.latest.Some? then g.latest.value.idx else -1
  }

  /** The registration of a type names its newest contract. */
  ghost predicate NamesNewest(r: Registry) {
    forall t :: t in r.types ==> r.types[t].registration.latest == LatestAt(r, t, r.types[t].lastIdx)
  }

  /** A row an update read no earlier than its tag was shown, naming the newest contract of its time. */
  ghost predicate ReadBehind(r: Registry, c: Command, seen: TypeRow)
    requires c.Update?
  {
    && c.documentType in r.types && IndexOf(c.expected.of) <= seen.lastIdx <= r.types[c.documentType].lastIdx
    && seen.registration.latest == LatestAt(r, c.documentType, seen.lastIdx)
  }

  /** Receipts stay, history only grows and by this call alone, a row that was not written is unchanged. */
  ghost predicate Evolves(r: Registry, r': Registry, writer: nat) {
    && r.history <= r'.history
    && (forall i :: |r.history| <= i < |r'.history| ==> r'.history[i].writer == writer)
    && (forall k :: k in r.receipts ==> k in r'.receipts && r'.receipts[k] == r.receipts[k])
    && (forall t :: t in r.types ==>
          && t in r'.types && WritesTo(r'.history, t) >= WritesTo(r.history, t)
          && (WritesTo(r'.history, t) == WritesTo(r.history, t) ==> r'.types[t] == r.types[t]))
  }

  lemma BatchEvolves(r: Registry, writer: nat, c: Command, seen: TypeRow)
    ensures Evolves(r, Batch(r, writer, c, seen), writer)
  {
  }

  /** A row of the command's type, from which the command builds a complete registration. */
  predicate Presentable(c: Command, seen: TypeRow) {
    seen.registration.documentType == c.documentType && Complete(seen.registration) && Complete(Built(c, seen))
  }

  lemma BatchKeepsContracts(r: Registry, writer: nat, c: Command, seen: TypeRow)
    requires ContractsExact(r) && Presentable(c, seen)
    ensures ContractsExact(Batch(r, writer, c, seen))
  {
    var r' := Batch(r, writer, c, seen);
    if BatchHolds(r, c, seen) && c.Append? {
      forall t, i ensures (t, i) in r'.contracts <==> t in r'.types && 0 <= i <= r'.types[t].lastIdx {
        assert (t, i) in r.contracts <==> t in r.types && 0 <= i <= r.types[t].lastIdx;
      }
      forall k | k in r.contracts && k.0 == c.documentType ensures r.contracts[k].contract != c.contract {
        assert !ContractTaken(r, c.documentType, c.contract);
      }
    }
  }

  lemma {:induction false} HasEventStill(history: seq<Event>, e: Event, k: ReceiptKey)
    requires HasEvent(history, k) || k == KeyOf(e.command)
    ensures HasEvent(history + [e], k)
  {
    if HasEvent(history, k) {
      var i :| 0 <= i < |history| && KeyOf(history[i].command) == k;
      assert (history + [e])[i] == history[i];
    } else {
      assert (history + [e])[|history|] == e;
    }
  }

  lemma OneMoreEvent(r: Registry, r': Registry, e: Event, receipt: Receipt)
    requires EventsMatchReceipts(r) && KeyOf(e.command) !in r.receipts
    requires r'.history == r.history + [e] && r'.receipts == r.receipts[KeyOf(e.command) := receipt]
    requires EventSound(r', e)
    ensures EventsMatchReceipts(r')
  {
    forall i | 0 <= i < |r'.history| ensures EventSound(r', r'.history[i]) {
      assert i < |r.history| ==> EventSound(r, r.history[i]);
    }
    forall i | 0 <= i < |r.history| ensures KeyOf(r.history[i].command) != KeyOf(e.command) {
      assert EventSound(r, r.history[i]);
    }
    forall k | k in r'.receipts ensures HasEvent(r'.history, k) {
      HasEventStill(r.history, e, k);
    }
  }

  lemma BatchKeepsReceipts(r: Registry, writer: nat, c: Command, seen: TypeRow)
    requires EventsMatchReceipts(r)
    ensures EventsMatchReceipts(Batch(r, writer, c, seen))
  {
    var r' := Batch(r, writer, c, seen);
    if BatchHolds(r, c, seen) {
      var e := Event(writer, c, seen, r.types[c.documentType].registration, Built(c, seen));
      OneMoreEvent(r, r', e, Receipt(FingerprintOf(c), ResponseTo(c, seen)));
    }
  }

}

/**
 * Calls of the registry, interleaved statement by statement: any number of appends and updates, with
 * replies lost, batches failing for no reason of the tables, authority given and taken.
 */
module RegistryProtocol {
  import opened Wrappers
  import opened RegistryTables

  datatype Error = Forbidden | IdempotencyConflict | NotFound | InvalidRequest | PreconditionFailed | BatchFailed | ContentionExceeded
  datatype Outcome = Answered(response: Response) | Failed(error: Error)

  /** A row as it was read, with how many writes it had seen by then. */
  datatype Reading = Reading(row: TypeRow, writes: nat)

  datatype Place =
    | Replaying(start: Option<Reading>)
    | ReadingRow(attempt: nat)
    | Writing(attempt: nat, reading: Reading)
    | Rechecking(attempt: nat, reading: Reading)
    | CheckingDuplicate(attempt: nat, reading: Reading)
    | ReadingLatest(attempt: nat, reading: Reading)
    | Finished(outcome: Outcome)

  /** A call, the number of writes to its type when it began, and where it stands. */
  datatype Client = Client(command: Command, began: nat, place: Place)

  datatype Fate = Acknowledged | ReplyLost | Refused

  datatype System = System(registry: Registry, clients: map<nat, Client>)

  const Init := System(Registry({}, map[], map[], map[], []), map[])

  datatype Action =
    | Begin(id: nat, command: Command)
    | Advance(id: nat, fate: Fate)
    | Create(documentType: string, name: string, at: int)
    | SetActive(actors: set<string>)

  /** The receipt of this key, once the caller's authority is established; nothing if there is none yet. */
  function Replay(r: Registry, c: Command): Option<Outcome> {
    if c.actor !in r.active then Some(Failed(Forbidden))
    else if KeyOf(c) !in r.receipts then None
    else if r.receipts[KeyOf(c)].fingerprint != FingerprintOf(c) then Some(Failed(IdempotencyConflict))
    else Some(Answered(r.receipts[KeyOf(c)].response))
  }

  function Read(r: Registry, t: string): Reading
    requires t in r.types
  {
    Reading(r.types[t], WritesTo(r.history, t))
  }

  function AppendPlace(r: Registry, c: Command, p: Place): Place
    requires c.Append? && !p.Writing?
  {
    match p
    case Replaying(_) => var o := Replay(r, c); if o.Some? then Finished(o.value) else ReadingRow(0)
    case ReadingRow(attempt) =>
      if attempt >= MAX_ATTEMPTS then Finished(Failed(ContentionExceeded))
      else if c.documentType !in r.types then Finished(Failed(NotFound))
      else Writing(attempt, Read(r, c.documentType))
    case Rechecking(attempt, reading) =>
      var o := Replay(r, c); if o.Some? then Finished(o.value) else CheckingDuplicate(attempt, reading)
    case CheckingDuplicate(attempt, reading) =>
      if ContractTaken(r, c.documentType, c.contract) then Finished(Failed(InvalidRequest)) else ReadingLatest(attempt, reading)
    case ReadingLatest(attempt, reading) =>
      if c.documentType !in r.types then Finished(Failed(NotFound))
      else
        var latest := r.types[c.documentType];
        if latest.lastIdx == reading.row.lastIdx && Etag(latest.registration) == Etag(reading.row.registration)
        then Finished(Failed(BatchFailed)) else ReadingRow(attempt + 1)
    case Finished(_) => p
  }

  function UpdatePlace(r: Registry, c: Command, p: Place): Place
    requires c.Update? && !p.Writing?
  {
    match p
    case ReadingRow(_) =>
      if c.actor !in r.active then Finished(Failed(Forbidden))
      else if c.documentType !in r.types then Finished(Failed(NotFound))
      else if !Complete(Built(c, r.types[c.documentType])) then Finished(Failed(InvalidRequest))
      else Replaying(Some(Read(r, c.documentType)))
    case Replaying(start) =>
      var o := Replay(r, c);
      if o.Some? then Finished(o.value) else if start.None? then p else Writing(0, start.value)
    case Rechecking(attempt, reading) =>
      var o := Replay(r, c); if o.Some? then Finished(o.value) else ReadingLatest(attempt, reading)
    case ReadingLatest(_, _) =>
      if c.actor !in r.active then Finished(Failed(Forbidden))
      else if c.documentType !in r.types then Finished(Failed(NotFound))
      else if Etag(r.types[c.documentType].registration) != c.expected then Finished(Failed(PreconditionFailed))
      else Finished(Failed(BatchFailed))
    case CheckingDuplicate(_, _) => p
    case Finished(_) => p
  }

  function Move(r: Registry, id: nat, c: Client, fate: Fate): (Registry, Client) {
    if c.place.Writing? then
      var attempt, reading := c.place.attempt, c.place.reading;
      if fate.Refused? then (r, c.(place := Rechecking(attempt, reading)))
      else
        (Batch(r, id, c.command, reading.row),
         c.(place := if BatchHolds(r, c.command, reading.row) && fate.Acknowledged?
                     then Finished(Answered(ResponseTo(c.command, reading.row)))
                     else Rechecking(attempt, reading)))
    else (r, c.(place := if c.command.Append? then AppendPlace(r, c.command, c.place) else UpdatePlace(r, c.command, c.place)))
  }

  function Step(s: System, a: Action): System {
    match a
    case Begin(id, c) =>
      if id in s.clients then s
      else s.(clients := s.clients[id := Client(c, WritesTo(s.registry.history, c.documentType),
                                                if c.Append? then Replaying(None) else ReadingRow(0))])
    case Advance(id, fate) =>
      if id !in s.clients then s
      else
        var (r, c) := Move(s.registry, id, s.clients[id], fate);
        System(r, s.clients[id := c])
    case Create(t, name, at) => s.(registry := CreateType(s.registry, t, name, at))
    case SetActive(actors) => s.(registry := s.registry.(active := actors))
  }

  function Run(actions: seq<Action>): System {
    if actions == [] then Init else Step(Run(actions[..|actions| - 1]), actions[|actions| - 1])
  }

  // ---------------------------------------------------------------- what every run keeps

  /** A reading is a row of the past, and still the row if nothing was written since. */
  ghost predicate ReadingSound(r: Registry, c: Client, attempt: nat, reading: Reading) {
    var t := c.command.documentType;
    && t in r.types && Presentable(c.command, reading.row)
    && c.began + attempt <= reading.writes <= WritesTo(r.history, t)
    && (reading.writes == WritesTo(r.history, t) ==> r.types[t] == reading.row)
  }

  ghost predicate ClientSound(r: Registry, c: Client) {
    match c.place
    case Replaying(start) =>
      && c.began <= WritesTo(r.history, c.command.documentType)
      && (c.command.Update? <==> start.Some?) && (start.Some? ==> ReadingSound(r, c, 0, start.value))
    case ReadingRow(attempt) => c.began + attempt <= WritesTo(r.history, c.command.documentType)
    case Finished(Answered(response)) =>
      KeyOf(c.command) in r.receipts && r.receipts[KeyOf(c.command)] == Receipt(FingerprintOf(c.command), response)
    case Finished(Failed(e)) => e.ContentionExceeded? ==> c.began + MAX_ATTEMPTS <= WritesTo(r.history, c.command.documentType)
    case _ => ReadingSound(r, c, c.place.attempt, c.place.reading)
  }

  /** Only a call whose batch went through unheard, or that ended with its answer or without authority, may have written. */
  predicate MayHaveWritten(p: Place) {
    p.Rechecking? || (p.Finished? && (p.outcome.Answered? || p.outcome.error.Forbidden?))
  }

  ghost predicate WritersKnown(s: System) {
    forall i :: 0 <= i < |s.registry.history| ==>
      var e := s.registry.history[i];
      e.writer in s.clients && s.clients[e.writer].command == e.command && MayHaveWritten(s.clients[e.writer].place)
  }

  ghost predicate TablesSound(r: Registry) {
    ContractsExact(r) && EventsMatchReceipts(r)
  }

  ghost predicate ClientsSound(s: System) {
    forall id :: id in s.clients ==> ClientSound(s.registry, s.clients[id])
  }

  ghost predicate Inv(s: System) {
    TablesSound(s.registry) && ClientsSound(s) && WritersKnown(s)
  }

  lemma {:induction false} WritesGrow(history: seq<Event>, history': seq<Event>, t: string)
    requires history <= history'
    ensures WritesTo(history, t) <= WritesTo(history', t)
    decreases |history'|
  {
    if |history| == |history'| {
      assert history == history';
    } else {
      assert history <= history'[..|history'| - 1];
      WritesGrow(history, history'[..|history'| - 1], t);
    }
  }

  /** A call that moves without writing. */
  lemma QuietMoveSound(r: Registry, id: nat, c: Client, fate: Fate)
    requires ContractsExact(r) && ClientSound(r, c)
    requires !c.place.Writing?
    ensures ClientSound(r, Move(r, id, c, fate).1)
  {
    if c.command.Append? { AppendMoveSound(r, c); } else { UpdateMoveSound(r, c); }
  }

  lemma AppendMoveSound(r: Registry, c: Client)
    requires ContractsExact(r) && ClientSound(r, c) && !c.place.Writing? && c.command.Append?
    ensures ClientSound(r, c.(place := AppendPlace(r, c.command, c.place)))
  {
  }

  lemma UpdateMoveSound(r: Registry, c: Client)
    requires ContractsExact(r) && ClientSound(r, c) && !c.place.Writing? && c.command.Update?
    ensures ClientSound(r, c.(place := UpdatePlace(r, c.command, c.place)))
  {
  }

  lemma WritingMoveSound(r: Registry, id: nat, c: Client, fate: Fate)
    requires ClientSound(r, c) && c.place.Writing?
    ensures ClientSound(Move(r, id, c, fate).0, Move(r, id, c, fate).1)
  {
  }

  lemma AdvanceKeepsClients(s: System, id: nat, fate: Fate)
    requires ContractsExact(s.registry) && ClientsSound(s) && id in s.clients
    ensures ClientsSound(Step(s, Advance(id, fate)))
  {
    var s' := Step(s, Advance(id, fate));
    var c := s.clients[id];
    if c.place.Writing? {
      BatchEvolves(s.registry, id, c.command, c.place.reading.row);
      WritingMoveSound(s.registry, id, c, fate);
    } else {
      QuietMoveSound(s.registry, id, c, fate);
    }
    forall other | other in s.clients && other != id ensures ClientSound(s'.registry, s.clients[other]) {
      if s'.registry != s.registry {
        WritesGrow(s.registry.history, s'.registry.history, s.clients[other].command.documentType);
      }
    }
  }

  lemma AdvanceKeepsWriters(s: System, id: nat, fate: Fate)
    requires EventsSound(s.registry) && WritersKnown(s) && id in s.clients
    ensures WritersKnown(Step(s, Advance(id, fate)))
  {
  }

  lemma BatchKeepsTables(r: Registry, id: nat, c: Command, seen: TypeRow)
    requires TablesSound(r) && Presentable(c, seen)
    ensures TablesSound(Batch(r, id, c, seen))
  {
    BatchKeepsContracts(r, id, c, seen);
    BatchKeepsReceipts(r, id, c, seen);
  }

  lemma SameReceipts(r: Registry, r': Registry)
    requires EventsMatchReceipts(r) && r'.history == r.history && r'.receipts == r.receipts
    ensures EventsMatchReceipts(r')
  {
  }

  lemma EnvironmentKeepsClients(s: System, a: Action)
    requires ClientsSound(s) && (a.Create? || a.SetActive?)
    ensures ClientsSound(Step(s, a))
  {
  }

  lemma BeginKeeps(s: System, id: nat, c: Command)
    requires ClientsSound(s) && WritersKnown(s)
    ensures ClientsSound(Step(s, Begin(id, c))) && WritersKnown(Step(s, Begin(id, c)))
  {
  }

  lemma CreateKeepsTables(r: Registry, t: string, name: string, at: int)
    requires TablesSound(r)
    ensures TablesSound(CreateType(r, t, name, at))
  {
  }

  lemma {:induction false} RunKeeps(actions: seq<Action>)
    ensures Inv(Run(actions))
  {
    if actions != [] {
      var s := Run(actions[..|actions| - 1]);
      RunKeeps(actions[..|actions| - 1]);
      match actions[|actions| - 1]
      case Begin(id, c) => BeginKeeps(s, id, c);
      case Advance(id, fate) =>
        if id in s.clients {
          AdvanceKeepsClients(s, id, fate);
          AdvanceKeepsWriters(s, id, fate);
          var c := s.clients[id];
          if c.place.Writing? {
            assert ClientSound(s.registry, c);
            BatchKeepsTables(s.registry, id, c.command, c.place.reading.row);
          }
        }
      case Create(t, name, at) =>
        CreateKeepsTables(s.registry, t, name, at);
        EnvironmentKeepsClients(s, Create(t, name, at));
      case SetActive(actors) =>
        SameReceipts(s.registry, s.registry.(active := actors));
        EnvironmentKeepsClients(s, SetActive(actors));
    }
  }

  // ---------------------------------------------------------------- updates and the rows they replace

  /** A write of this type that replaced this registration by another. */
  predicate Replaces(e: Event, t: string, g: Registration) {
    e.command.documentType == t && e.replaced == g != e.stored
  }

  /** A registration this type had and left. */
  ghost predicate Gone(history: seq<Event>, t: string, g: Registration) {
    exists j :: 0 <= j < |history| && Replaces(history[j], t, g)
  }

  /** A registration this type has or had. */
  ghost predicate Carried(r: Registry, t: string, g: Registration) {
    t in r.types && (r.types[t].registration == g || Gone(r.history, t, g))
  }

  /** A write brings back a registration its type had left, its settings, newest contract and time all equal. */
  predicate BringsBack(later: Event, earlier: Event) {
    later.stored != later.replaced && Replaces(earlier, later.command.documentType, later.stored)
  }

  ghost predicate NoRecurrence(history: seq<Event>) {
    forall i, j :: 0 <= j < i < |history| ==> !BringsBack(history[i], history[j])
  }

  /** Every update is begun with a tag that its type carries or has carried. */
  ghost predicate TagsKnown(actions: seq<Action>) {
    forall k :: 0 <= k < |actions| ==> TagKnown(Run(actions[..k]), actions[k])
  }

  ghost predicate TagKnown(s: System, a: Action) {
    a.Begin? && a.command.Update? && a.id !in s.clients ==> Carried(s.registry, a.command.documentType, a.command.expected.of)
  }

  /** The row a call has read, while it still may write or explain a failure. */
  function RowRead(p: Place): Option<TypeRow> {
    match p
    case Replaying(start) => if start.Some? then Some(start.value.row) else None
    case ReadingRow(_) => None
    case Finished(_) => None
    case _ => Some(p.reading.row)
  }

  /** The tag of an update is known, and what the update read carries it or came after it. */
  ghost predicate TagBehind(r: Registry, c: Client) {
    c.command.Update? ==>
      && Carried(r, c.command.documentType, c.command.expected.of)
      && (RowRead(c.place).Some? ==>
            || RowRead(c.place).value.registration == c.command.expected.of
            || Gone(r.history, c.command.documentType, c.command.expected.of))
  }

  ghost predicate TagsBehind(s: System) {
    forall id :: id in s.clients ==> TagBehind(s.registry, s.clients[id])
  }

  /** No type's registration is one that was replaced before. */
  ghost predicate CurrentIsNew(r: Registry) {
    && (forall t :: t in r.types ==> !Gone(r.history, t, r.types[t].registration))
    && (forall j :: 0 <= j < |r.history| ==> r.history[j].command.documentType in r.types)
  }

  lemma {:induction false} GoneGrows(history: seq<Event>, e: Event, t: string, g: Registration)
    ensures Gone(history + [e], t, g) <==> Gone(history, t, g) || Replaces(e, t, g)
  {
    var longer := history + [e];
    if Gone(history, t, g) {
      var j :| 0 <= j < |history| && Replaces(history[j], t, g);
      assert longer[j] == history[j];
    }
    if Replaces(e, t, g) {
      assert longer[|history|] == e;
    }
    if Gone(longer, t, g) {
      var j :| 0 <= j < |longer| && Replaces(longer[j], t, g);
      assert j < |history| ==> history[j] == longer[j];
    }
  }

  lemma BatchKeepsCarried(r: Registry, writer: nat, c: Command, seen: TypeRow, t: string, g: Registration)
    ensures Carried(r, t, g) ==> Carried(Batch(r, writer, c, seen), t, g)
    ensures Gone(r.history, t, g) ==> Gone(Batch(r, writer, c, seen).history, t, g)
  {
    if BatchHolds(r, c, seen) {
      GoneGrows(r.history, Event(writer, c, seen, r.types[c.documentType].registration, Built(c, seen)), t, g);
    }
  }

  lemma BatchKeepsCurrent(r: Registry, writer: nat, c: Command, seen: TypeRow)
    requires CurrentIsNew(r) && NoRecurrence(Batch(r, writer, c, seen).history)
    ensures CurrentIsNew(Batch(r, writer, c, seen))
  {
    var r' := Batch(r, writer, c, seen);
    if BatchHolds(r, c, seen) {
      var e := Event(writer, c, seen, r.types[c.documentType].registration, Built(c, seen));
      forall t | t in r'.types ensures !Gone(r'.history, t, r'.types[t].registration) {
        GoneGrows(r.history, e, t, r'.types[t].registration);
        if t == c.documentType && e.stored != e.replaced {
          forall j | 0 <= j < |r.history| ensures !Replaces(r.history[j], t, e.stored) {
            assert r'.history[j] == r.history[j] && !BringsBack(r'.history[|r.history|], r'.history[j]);
          }
        }
      }
      forall j | 0 <= j < |r'.history| ensures r'.history[j].command.documentType in r'.types {
        assert j < |r.history| ==> r'.history[j] == r.history[j];
      }
    }
  }

  /** Updates were computed from the very registration they replaced. */
  ghost predicate UpdatesCurrent(history: seq<Event>) {
    forall i :: 0 <= i < |history| && history[i].command.Update? ==> Etag(history[i].seen.registration) == history[i].command.expected
  }

  /** An update that goes through was computed from what it replaces. */
  lemma UpdateIsCurrent(r: Registry, c: Client)
    requires CurrentIsNew(r) && TagBehind(r, c) && c.place.Writing? && c.command.Update?
    requires BatchHolds(r, c.command, c.place.reading.row)
    ensures c.place.reading.row.registration == c.command.expected.of == r.types[c.command.documentType].registration
  {
  }

  lemma AdvanceKeepsTags(s: System, id: nat, fate: Fate)
    requires TagsBehind(s) && id in s.clients
    ensures TagsBehind(Step(s, Advance(id, fate)))
  {
    var s' := Step(s, Advance(id, fate));
    var c := s.clients[id];
    assert TagBehind(s.registry, c);
    forall other | other in s'.clients ensures TagBehind(s'.registry, s'.clients[other]) {
      var d := s.clients[other];
      assert TagBehind(s.registry, d);
      if c.place.Writing? && d.command.Update? {
        BatchKeepsCarried(s.registry, id, c.command, c.place.reading.row, d.command.documentType, d.command.expected.of);
      }
    }
  }

  lemma {:induction false} AdvanceKeepsCurrent(s: System, id: nat, fate: Fate)
    requires CurrentIsNew(s.registry) && TagsBehind(s) && UpdatesCurrent(s.registry.history) && id in s.clients
    requires NoRecurrence(Step(s, Advance(id, fate)).registry.history)
    ensures var r := Step(s, Advance(id, fate)).registry; CurrentIsNew(r) && UpdatesCurrent(r.history)
  {
    var c := s.clients[id];
    if c.place.Writing? && fate != Refused {
      assert TagBehind(s.registry, c);
      BatchKeepsCurrent(s.registry, id, c.command, c.place.reading.row);
      var r := Batch(s.registry, id, c.command, c.place.reading.row);
      if BatchHolds(s.registry, c.command, c.place.reading.row) {
        if c.command.Update? { UpdateIsCurrent(s.registry, c); }
        forall i | 0 <= i < |r.history| && r.history[i].command.Update?
          ensures Etag(r.history[i].seen.registration) == r.history[i].command.expected
        {
          assert i < |s.registry.history| ==> r.history[i] == s.registry.history[i];
        }
      }
    }
  }

  lemma OtherStepsKeepCurrent(s: System, a: Action)
    requires CurrentIsNew(s.registry) && TagsBehind(s) && TagKnown(s, a) && !a.Advance?
    ensures CurrentIsNew(Step(s, a).registry) && TagsBehind(Step(s, a))
    ensures Step(s, a).registry.history == s.registry.history
  {
  }

  lemma {:induction false} RunIsCurrent(actions: seq<Action>)
    requires TagsKnown(actions) && NoRecurrence(Run(actions).registry.history)
    ensures CurrentIsNew(Run(actions).registry) && TagsBehind(Run(actions)) && UpdatesCurrent(Run(actions).registry.history)
  {
    if actions != [] {
      var earlier, a := actions[..|actions| - 1], actions[|actions| - 1];
      var s := Run(earlier);
      forall k | 0 <= k < |earlier| ensures TagKnown(Run(earlier[..k]), earlier[k]) {
        assert earlier[..k] == actions[..k] && TagKnown(Run(actions[..k]), actions[k]);
      }
      assert TagKnown(Run(actions[..|earlier|]), actions[|earlier|]);
      if a.Advance? && a.id in s.clients {
        HistoryGrows(s, a.id, a.fate);
        EarlierToo(s.registry.history, Run(actions).registry.history);
        RunIsCurrent(earlier);
        AdvanceKeepsTags(s, a.id, a.fate);
        AdvanceKeepsCurrent(s, a.id, a.fate);
      } else {
        RunIsCurrent(earlier);
        if !a.Advance? { OtherStepsKeepCurrent(s, a); }
      }
    }
  }

  lemma HistoryGrows(s: System, id: nat, fate: Fate)
    requires id in s.clients
    ensures s.registry.history <= Step(s, Advance(id, fate)).registry.history
  {
  }

  lemma {:induction false} EarlierToo(history: seq<Event>, longer: seq<Event>)
    requires history <= longer && NoRecurrence(longer)
    ensures NoRecurrence(history)
  {
  }

  // ---------------------------------------------------------------- updates and the newest contract

  /** The tag of an update names no contract newer than its row had when it was read. */
  ghost predicate TagReached(r: Registry, c: Client) {
    c.command.Update? ==>
      var t := c.command.documentType;
      && t in r.types && IndexOf(c.command.expected.of) <= r.types[t].lastIdx
      && (RowRead(c.place).Some? ==> ReadBehind(r, c.command, RowRead(c.place).value))
  }

  /** What was replaced named no contract newer than the type has now. */
  ghost predicate IndicesRise(r: Registry) {
    forall j :: 0 <= j < |r.history| ==>
      var t := r.history[j].command.documentType;
      t in r.types && IndexOf(r.history[j].replaced) <= r.types[t].lastIdx
  }

  ghost predicate Newest(s: System) {
    NamesNewest(s.registry) && IndicesRise(s.registry) && forall id :: id in s.clients ==> TagReached(s.registry, s.clients[id])
  }

  lemma CarriedIsReached(r: Registry, t: string, g: Registration)
    requires ContractsExact(r) && NamesNewest(r) && IndicesRise(r) && Carried(r, t, g)
    ensures IndexOf(g) <= r.types[t].lastIdx
  {
  }

  lemma BatchKeepsReached(r: Registry, writer: nat, c: Command, seen: TypeRow, d: Client)
    requires ContractsExact(r) && TagReached(r, d)
    ensures TagReached(Batch(r, writer, c, seen), d)
  {
  }

  lemma {:induction false} BatchKeepsRising(r: Registry, writer: nat, c: Command, seen: TypeRow)
    requires ContractsExact(r) && NamesNewest(r) && IndicesRise(r)
    ensures IndicesRise(Batch(r, writer, c, seen))
  {
  }

  lemma QuietMoveReached(r: Registry, id: nat, c: Client, fate: Fate)
    requires ContractsExact(r) && NamesNewest(r) && TagReached(r, c) && !c.place.Writing?
    ensures TagReached(r, Move(r, id, c, fate).1)
  {
  }

  lemma WritingMoveReached(r: Registry, id: nat, c: Client, fate: Fate)
    requires ContractsExact(r) && TagReached(r, c) && c.place.Writing?
    ensures TagReached(Move(r, id, c, fate).0, Move(r, id, c, fate).1)
  {
  }

  lemma AdvanceKeepsReached(s: System, id: nat, fate: Fate, other: nat)
    requires ContractsExact(s.registry) && Newest(s) && id in s.clients && other in s.clients
    ensures var s' := Step(s, Advance(id, fate)); TagReached(s'.registry, s'.clients[other])
  {
    var c := s.clients[id];
    assert TagReached(s.registry, c) && TagReached(s.registry, s.clients[other]);
    if !c.place.Writing? {
      QuietMoveReached(s.registry, id, c, fate);
    } else if other == id {
      WritingMoveReached(s.registry, id, c, fate);
    } else {
      BatchKeepsReached(s.registry, id, c.command, c.place.reading.row, s.clients[other]);
    }
  }

  lemma AdvanceKeepsNewest(s: System, id: nat, fate: Fate)
    requires ContractsExact(s.registry) && Newest(s) && id in s.clients
    ensures Newest(Step(s, Advance(id, fate)))
  {
    var c := s.clients[id];
    var s' := Step(s, Advance(id, fate));
    assert TagReached(s.registry, c);
    forall other | other in s'.clients ensures TagReached(s'.registry, s'.clients[other]) {
      AdvanceKeepsReached(s, id, fate, other);
    }
    if c.place.Writing? {
      BatchKeepsRising(s.registry, id, c.command, c.place.reading.row);
    }
  }

  lemma OtherStepsKeepNewest(s: System, a: Action)
    requires ContractsExact(s.registry) && Newest(s) && TagKnown(s, a) && !a.Advance?
    ensures Newest(Step(s, a))
  {
    var s' := Step(s, a);
    if a.Begin? && a.command.Update? && a.id !in s.clients {
      CarriedIsReached(s.registry, a.command.documentType, a.command.expected.of);
    }
    forall id | id in s'.clients ensures TagReached(s'.registry, s'.clients[id]) {
      assert id in s.clients ==> TagReached(s.registry, s.clients[id]);
    }
  }

  lemma {:induction false} RunNamesNewest(actions: seq<Action>)
    requires TagsKnown(actions)
    ensures Newest(Run(actions))
  {
    if actions != [] {
      var earlier, a := actions[..|actions| - 1], actions[|actions| - 1];
      forall k | 0 <= k < |earlier| ensures TagKnown(Run(earlier[..k]), earlier[k]) {
        assert earlier[..k] == actions[..k] && TagKnown(Run(actions[..k]), actions[k]);
      }
      RunNamesNewest(earlier);
      RunKeeps(earlier);
      assert TagKnown(Run(actions[..|earlier|]), actions[|earlier|]);
      if a.Advance? {
        if a.id in Run(earlier).clients { AdvanceKeepsNewest(Run(earlier), a.id, a.fate); }
      } else {
        OtherStepsKeepNewest(Run(earlier), a);
      }
    }
  }

  // ---------------------------------------------------------------- theorems over all runs

  /** A type's contracts are numbered exactly 0 up to its last index, and no contract is listed twice. */
  lemma {:induction false} IndicesAreExact(actions: seq<Action>, t: string, i: int, j: int)
    requires t in Run(actions).registry.types
    ensures var r := Run(actions).registry;
      && ((t, i) in r.contracts <==> 0 <= i <= r.types[t].lastIdx)
      && ((t, i) in r.contracts && (t, j) in r.contracts && r.contracts[(t, i)].contract == r.contracts[(t, j)].contract ==> i == j)
  {
    RunKeeps(actions);
  }

  /** A key takes effect at most once, and every call that gets an answer for it gets the one of its effect. */
  lemma {:induction false} KeysTakeEffectOnce(actions: seq<Action>, i: nat, j: nat, id: nat)
    requires i < |Run(actions).registry.history| && j < |Run(actions).registry.history| && id in Run(actions).clients
    ensures var s := Run(actions);
      var e, c := s.registry.history[i], s.clients[id];
      && (KeyOf(e.command) == KeyOf(s.registry.history[j].command) ==> i == j)
      && (c.place.Finished? && c.place.outcome.Answered? && KeyOf(c.command) == KeyOf(e.command) ==>
            c.place.outcome.response == ResponseTo(e.command, e.seen) && FingerprintOf(c.command) == FingerprintOf(e.command))
      && (c.place.Finished? && c.place.outcome.Answered? ==> HasEvent(s.registry.history, KeyOf(c.command)))
  {
    RunKeeps(actions);
    var s := Run(actions);
    OneEffect(s.registry, i, j);
    AnswerIsItsEffects(s.registry, s.clients[id], s.registry.history[i]);
  }

  lemma OneEffect(r: Registry, i: nat, j: nat)
    requires EventsMatchReceipts(r) && i < |r.history| && j < |r.history|
    ensures EventSound(r, r.history[i]) && (KeyOf(r.history[i].command) == KeyOf(r.history[j].command) ==> i == j)
  {
  }

  lemma AnswerIsItsEffects(r: Registry, c: Client, e: Event)
    requires EventSound(r, e) && ClientSound(r, c)
    ensures c.place.Finished? && c.place.outcome.Answered? && KeyOf(c.command) == KeyOf(e.command) ==>
              c.place.outcome.response == ResponseTo(e.command, e.seen) && FingerprintOf(c.command) == FingerprintOf(e.command)
    ensures c.place.Finished? && c.place.outcome.Answered? ==> KeyOf(c.command) in r.receipts
  {
  }

  /** Every write stored what its command builds from what it had read, an append always from the very registration it replaced. */
  lemma {:induction false} AppendsAreComputedFromWhatTheyReplace(actions: seq<Action>, i: nat)
    requires i < |Run(actions).registry.history|
    ensures var e := Run(actions).registry.history[i];
      e.stored == Built(e.command, e.seen) && (e.command.Append? ==> e.seen.registration == e.replaced)
  {
    RunKeeps(actions);
    assert EventSound(Run(actions).registry, Run(actions).registry.history[i]);
  }

  /**
   * So did every update, as long as callers send tags that their type has shown before the call, and no
   * registration comes back exactly as it was: whatever appends and updates interleave, no write is lost.
   */
  lemma {:induction false} UpdatesAreComputedFromWhatTheyReplace(actions: seq<Action>, i: nat)
    requires TagsKnown(actions) && NoRecurrence(Run(actions).registry.history)
    requires i < |Run(actions).registry.history|
    ensures var e := Run(actions).registry.history[i]; e.stored == Built(e.command, e.seen) && e.seen.registration == e.replaced
  {
    RunKeeps(actions);
    RunIsCurrent(actions);
    assert EventSound(Run(actions).registry, Run(actions).registry.history[i]);
  }

  /** Every write of a type is given a later time than the registration it replaces. */
  ghost predicate TimeMovesOn(history: seq<Event>) {
    forall i :: 0 <= i < |history| ==> history[i].replaced.updatedAt < history[i].stored.updatedAt
  }

  ghost predicate AllEarlier(r: Registry) {
    forall j :: 0 <= j < |r.history| ==>
      var t := r.history[j].command.documentType;
      t in r.types && r.history[j].replaced.updatedAt < r.types[t].registration.updatedAt
  }

  lemma {:induction false} BatchMovesOn(r: Registry, writer: nat, c: Command, seen: TypeRow)
    requires AllEarlier(r) && NoRecurrence(r.history) && TimeMovesOn(Batch(r, writer, c, seen).history)
    ensures AllEarlier(Batch(r, writer, c, seen)) && NoRecurrence(Batch(r, writer, c, seen).history)
  {
    var r' := Batch(r, writer, c, seen);
    if BatchHolds(r, c, seen) {
      var n := |r.history|;
      assert r'.history[n].replaced == r.types[c.documentType].registration;
      forall j | 0 <= j < n ensures r'.history[j] == r.history[j] {}
      forall i, j | 0 <= j < i < |r'.history| ensures !BringsBack(r'.history[i], r'.history[j]) {
        if i == n && r'.history[j].command.documentType == c.documentType {
          assert r.history[j].replaced.updatedAt < r.types[c.documentType].registration.updatedAt < r'.history[n].stored.updatedAt;
        }
      }
    }
  }

  /** Where time moves on with every write, no registration comes back. */
  lemma {:induction false} MovingTimeBringsNothingBack(actions: seq<Action>)
    requires TimeMovesOn(Run(actions).registry.history)
    ensures NoRecurrence(Run(actions).registry.history) && AllEarlier(Run(actions).registry)
  {
    if actions != [] {
      var s, a := Run(actions[..|actions| - 1]), actions[|actions| - 1];
      var s' := Run(actions);
      if a.Advance? && a.id in s.clients {
        HistoryGrows(s, a.id, a.fate);
        forall i | 0 <= i < |s.registry.history| ensures s'.registry.history[i] == s.registry.history[i] {}
        MovingTimeBringsNothingBack(actions[..|actions| - 1]);
        var c := s.clients[a.id];
        if c.place.Writing? && a.fate != Refused {
          BatchMovesOn(s.registry, a.id, c.command, c.place.reading.row);
        }
      } else {
        assert s'.registry.history == s.registry.history;
        MovingTimeBringsNothingBack(actions[..|actions| - 1]);
      }
    }
  }

  // ---------------------------------------------------------------- a registration that comes back

  lemma {:induction false} Turn(actions: seq<Action>, a: Action) returns (actions': seq<Action>)
    requires TagsKnown(actions) && TagKnown(Run(actions), a)
    ensures actions' == actions + [a] && Run(actions') == Step(Run(actions), a) && TagsKnown(actions')
  {
    actions' := actions + [a];
    assert actions'[..|actions|] == actions;
    forall k | 0 <= k < |actions'| ensures TagKnown(Run(actions'[..k]), actions'[k]) {
      if k < |actions| {
        assert actions'[..k] == actions[..k] && TagKnown(Run(actions[..k]), actions[k]);
      }
    }
  }

  /** A type named `name` and created at time 0. */
  function Named(t: string, name: string): Registration {
    Registration(t, Settings(name, false, None, None, None), None, 0)
  }

  function Rename(actor: string, key: string, t: string, name: string, expected: Etag): Command {
    Update(actor, key, t, Patch(Some(name), None, None, None, None), expected, 0)
  }

  function Dress(actor: string, key: string, t: string, bundle: string, expected: Etag): Command {
    Update(actor, key, t, Patch(None, None, Some(bundle), None, None), expected, 0)
  }

  /** An update whose reads nothing in the tables refuses. */
  predicate ReadyToRead(r: Registry, c: Command) {
    && c.Update? && c.actor in r.active && KeyOf(c) !in r.receipts
    && c.documentType in r.types && Complete(Built(c, r.types[c.documentType]))
  }

  /** Whose batch would go through as the tables stand. */
  predicate ReadyToUpdate(r: Registry, c: Command) {
    ReadyToRead(r, c) && Etag(r.types[c.documentType].registration) == c.expected
  }

  /** A statement of an update that only reads. */
  lemma {:induction false} UpdateMoves(actions: seq<Action>, id: nat, c: Client) returns (actions': seq<Action>)
    requires TagsKnown(actions) && id in Run(actions).clients && c == Run(actions).clients[id] && c.command.Update? && !c.place.Writing?
    ensures TagsKnown(actions')
    ensures var s := Run(actions);
      Run(actions') == System(s.registry, s.clients[id := c.(place := UpdatePlace(s.registry, c.command, c.place))])
  {
    actions' := Turn(actions, Advance(id, Acknowledged));
  }

  /** An update up to its batch, with nothing in between its statements. */
  lemma {:induction false} UpdateReads(actions: seq<Action>, id: nat, c: Command) returns (actions': seq<Action>)
    requires TagsKnown(actions) && id !in Run(actions).clients && ReadyToRead(Run(actions).registry, c)
    requires Carried(Run(actions).registry, c.documentType, c.expected.of)
    ensures TagsKnown(actions')
    ensures var s, s' := Run(actions), Run(actions');
      && s'.registry == s.registry && id in s'.clients && s'.clients == s.clients[id := s'.clients[id]]
      && s'.clients[id].command == c && s'.clients[id].place == Writing(0, Read(s.registry, c.documentType))
  {
    var s := Run(actions);
    var began := WritesTo(s.registry.history, c.documentType);
    var reading := Read(s.registry, c.documentType);
    actions' := Turn(actions, Begin(id, c));
    assert Run(actions').clients[id] == Client(c, began, ReadingRow(0)) && Run(actions').registry == s.registry;
    actions' := UpdateMoves(actions', id, Client(c, began, ReadingRow(0)));
    assert Run(actions').clients[id] == Client(c, began, Replaying(Some(reading)));
    actions' := UpdateMoves(actions', id, Client(c, began, Replaying(Some(reading))));
  }

  /** An update with nothing in between its statements, all of them acknowledged. */
  lemma {:induction false} UpdateAlone(actions: seq<Action>, id: nat, c: Command) returns (actions': seq<Action>)
    requires TagsKnown(actions) && id !in Run(actions).clients && ReadyToUpdate(Run(actions).registry, c)
    ensures TagsKnown(actions')
    ensures var s, s' := Run(actions), Run(actions');
      && s'.registry == Batch(s.registry, id, c, s.registry.types[c.documentType])
      && BatchHolds(s.registry, c, s.registry.types[c.documentType])
      && id in s'.clients && s'.clients == s.clients[id := s'.clients[id]]
  {
    actions' := UpdateReads(actions, id, c);
    actions' := Turn(actions', Advance(id, Acknowledged));
  }

  /** A type, and a call that will set its bundle, begun with the tag its type shows. */
  lemma {:induction false} DressBegun(actor: string, t: string, n0: string, b: string) returns (actions: seq<Action>)
    ensures TagsKnown(actions)
    ensures Run(actions) == System(Registry({actor}, map[t := TypeRow(-1, Named(t, n0))], map[], map[], []),
                                   map[2 := Client(Dress(actor, "2", t, b, Etag(Named(t, n0))), 0, ReadingRow(0))])
  {
    actions := [];
    actions := Turn(actions, SetActive({actor}));
    actions := Turn(actions, Create(t, n0, 0));
    actions := Turn(actions, Begin(2, Dress(actor, "2", t, b, Etag(Named(t, n0)))));
  }

  /** The same after a rename, the call having read its row. */
  lemma {:induction false} DressReads(actor: string, t: string, n0: string, n1: string, b: string) returns (actions: seq<Action>)
    ensures TagsKnown(actions)
    ensures var s := Run(actions); var rename := Rename(actor, "1", t, n1, Etag(Named(t, n0)));
      && s.registry.active == {actor} && s.registry.types == map[t := TypeRow(-1, Named(t, n1))] && s.registry.contracts == map[]
      && s.registry.receipts.Keys == {KeyOf(rename)}
      && s.registry.history == [Event(1, rename, TypeRow(-1, Named(t, n0)), Named(t, n0), Named(t, n1))]
      && 2 in s.clients && 3 !in s.clients && s.clients[2].command == Dress(actor, "2", t, b, Etag(Named(t, n0)))
      && s.clients[2].place.Writing? && s.clients[2].place.reading.row == TypeRow(-1, Named(t, n1))
  {
    actions := DressBegun(actor, t, n0, b);
    actions := UpdateAlone(actions, 1, Rename(actor, "1", t, n1, Etag(Named(t, n0))));
    actions := Turn(actions, Advance(2, Acknowledged));
    actions := Turn(actions, Advance(2, Acknowledged));
  }

  /**
   * The assumption is needed. A type is renamed and renamed back within one tick of the clock. A call that
   * read it under the middle name, with a tag shown before the call, then sets a bundle, and the middle name is back.
   */
  lemma {:induction false} RecurrenceUndoesAnUpdate(actor: string, t: string, n0: string, n1: string, b: string) returns (actions: seq<Action>)
    requires n0 != n1
    ensures TagsKnown(actions) && !NoRecurrence(Run(actions).registry.history)
    ensures var h := Run(actions).registry.history;
      && |h| == 3 && h[2].command == Dress(actor, "2", t, b, Etag(Named(t, n0)))
      && h[2].replaced.settings.internalName == n0 && h[2].stored.settings.internalName == n1
  {
    actions := DressReads(actor, t, n0, n1, b);
    var h1 := Run(actions).registry.history;
    actions := UpdateAlone(actions, 3, Rename(actor, "3", t, n0, Etag(Named(t, n1))));
    var s := Run(actions);
    var back := s.registry.history[1];
    assert s.registry.types[t] == TypeRow(-1, Named(t, n0)) && back.stored == Named(t, n0);
    assert s.registry.history == h1 + [back];
    var c := s.clients[2];
    assert BatchHolds(s.registry, c.command, c.place.reading.row);
    actions := Turn(actions, Advance(2, Acknowledged));
    var h := Run(actions).registry.history;
    assert h == h1 + [back] + [h[2]];
    assert BringsBack(h[1], h[0]);
  }

  // ---------------------------------------------------------------- every return lets an update go stale

  /** The point of a run at which an event of its history was written. */
  lemma {:induction false} WhenWritten(actions: seq<Action>, i: nat) returns (k: nat)
    requires TagsKnown(actions) && i < |Run(actions).registry.history|
    ensures k < |actions| && TagsKnown(actions[..k]) && TagKnown(Run(actions[..k]), actions[k])
    ensures var s, s', h := Run(actions[..k]), Step(Run(actions[..k]), actions[k]), Run(actions).registry.history;
      && s.registry.history == h[..i] && s'.registry.history == h[..i + 1]
      && s.clients.Keys <= Run(actions).clients.Keys
  {
    var last := |actions| - 1;
    var earlier, s := actions[..last], Run(actions[..last]);
    forall k | 0 <= k < last ensures TagKnown(Run(earlier[..k]), earlier[k]) {
      assert earlier[..k] == actions[..k] && TagKnown(Run(actions[..k]), actions[k]);
    }
    OneWriteAtMost(s, actions[last]);
    if i < |s.registry.history| {
      k := WhenWritten(earlier, i);
      assert earlier[..k] == actions[..k];
    } else {
      k := last;
      assert TagKnown(Run(actions[..last]), actions[last]);
    }
  }

  lemma OneWriteAtMost(s: System, a: Action)
    ensures s.registry.history <= Step(s, a).registry.history && |Step(s, a).registry.history| <= |s.registry.history| + 1
    ensures s.clients.Keys <= Step(s, a).clients.Keys
  {
  }

  /** A step that writes is a batch of its client, from the row that client read. */
  lemma WritingStep(s: System, a: Action)
    requires |Step(s, a).registry.history| == |s.registry.history| + 1
    ensures a.Advance? && a.id in s.clients && s.clients[a.id].place.Writing? && a.fate != Refused
    ensures var c := s.clients[a.id]; var seen := c.place.reading.row;
      && BatchHolds(s.registry, c.command, seen) && Step(s, a).registry == Batch(s.registry, a.id, c.command, seen)
      && Step(s, a).registry.history[|s.registry.history|]
         == Event(a.id, c.command, seen, s.registry.types[c.command.documentType].registration, Built(c.command, seen))
  {
  }

  /** An update that switches its type off, and so needs nothing else. */
  function SwitchOff(e: Event, key: string): Command {
    Update(e.command.actor, key, e.command.documentType, Patch(None, Some(false), None, None, None), Etag(e.stored), 0)
  }

  lemma {:induction false} ReceiptsStay(actions: seq<Action>, earlier: seq<Action>, k: ReceiptKey)
    requires Run(earlier).registry.history <= Run(actions).registry.history && k in Run(earlier).registry.receipts
    ensures k in Run(actions).registry.receipts
  {
    RunKeeps(actions);
    RunKeeps(earlier);
    var j :| 0 <= j < |Run(earlier).registry.history| && KeyOf(Run(earlier).registry.history[j].command) == k;
    assert EventSound(Run(actions).registry, Run(actions).registry.history[j]);
  }

  /**
   * The condition on returns cannot be dropped for any of them: wherever a run brings a registration back,
   * an update beginning just before with its tag would be stored, computed from the row that the return replaced.
   */
  lemma {:induction false} EveryReturnLetsAnUpdateGoStale(actions: seq<Action>, j: nat, i: nat, id: nat, key: string)
      returns (actions': seq<Action>)
    requires TagsKnown(actions) && j < i < |Run(actions).registry.history|
    requires BringsBack(Run(actions).registry.history[i], Run(actions).registry.history[j])
    requires var s := Run(actions);
      id !in s.clients && ReceiptKey(s.registry.history[i].command.actor, UpdateDocumentType, key) !in s.registry.receipts
    ensures TagsKnown(actions')
    ensures var h, h' := Run(actions).registry.history, Run(actions').registry.history;
      && |h'| == i + 2 && h'[..i + 1] == h[..i + 1]
      && h'[i + 1].command == SwitchOff(h[i], key) && h'[i + 1].replaced == h[i].stored
      && h'[i + 1].seen.registration == h[i].replaced != h'[i + 1].replaced
  {
    var h := Run(actions).registry.history;
    var k := WhenWritten(actions, i);
    var s, a := Run(actions[..k]), actions[k];
    WritingStep(s, a);
    assert Step(s, a).registry.history == h[..i + 1];
    var c := SwitchOff(h[i], key);
    if KeyOf(c) in s.registry.receipts { ReceiptsStay(actions, actions[..k], KeyOf(c)); }
    assert s.registry.history[j] == h[j];
    assert Gone(s.registry.history, c.documentType, c.expected.of);
    actions' := UpdateReads(actions[..k], id, c);
    var s1 := Run(actions');
    actions' := Turn(actions', a);
    var s2 := Run(actions');
    assert KeyOf(h[i].command) in Run(actions).registry.receipts by {
      RunKeeps(actions);
      assert EventSound(Run(actions).registry, h[i]);
    }
    assert BatchHolds(s2.registry, c, s1.clients[id].place.reading.row);
    actions' := Turn(actions', Advance(id, Acknowledged));
  }

  /** With tags known before the call a registration names its type's newest contract, even if registrations come back. */
  lemma {:induction false} RegistrationNamesNewestContract(actions: seq<Action>, t: string)
    requires TagsKnown(actions) && t in Run(actions).registry.types
    ensures var r := Run(actions).registry;
      match r.types[t].registration.latest
      case Some(record) => record.idx == r.types[t].lastIdx && (t, record.idx) in r.contracts && r.contracts[(t, record.idx)].record == record
      case None => r.types[t].lastIdx == -1
  {
    RunKeeps(actions);
    RunNamesNewest(actions);
  }

  /** An enabled type has a contract, both bundles and an operator, whatever interleaves. */
  lemma {:induction false} EnabledTypesAreComplete(actions: seq<Action>, t: string)
    requires t in Run(actions).registry.types
    ensures Complete(Run(actions).registry.types[t].registration)
  {
    RunKeeps(actions);
  }

  /** A call that ran out of retries lost to at least sixteen writes of the same type, none of them its own. */
  lemma {:induction false} ExhaustionMeansContention(actions: seq<Action>, id: nat)
    requires id in Run(actions).clients && Run(actions).clients[id].place == Finished(Failed(ContentionExceeded))
    ensures var s := Run(actions);
      && WritesTo(s.registry.history, s.clients[id].command.documentType) >= s.clients[id].began + MAX_ATTEMPTS
      && forall i :: 0 <= i < |s.registry.history| ==> s.registry.history[i].writer != id
  {
    RunKeeps(actions);
    assert ClientSound(Run(actions).registry, Run(actions).clients[id]);
  }

  /** A call that failed for any reason but lost authority left nothing behind. */
  lemma {:induction false} FailuresWroteNothing(actions: seq<Action>, id: nat, error: Error)
    requires id in Run(actions).clients && Run(actions).clients[id].place == Finished(Failed(error)) && !error.Forbidden?
    ensures forall i :: 0 <= i < |Run(actions).registry.history| ==> Run(actions).registry.history[i].writer != id
  {
    RunKeeps(actions);
  }
}

/** The append and the update as the repositories write them, other calls running between their statements. */
module ContractRepositories {
  import opened Wrappers
  import opened RegistryTables
  import opened RegistryProtocol

  predicate Leaves(a: Action, id: nat) {
    (a.Begin? || a.Advance?) ==> a.id != id
  }

  class D1DocumentContractRepository {
    var registry: Registry
    /** The calls in flight, what they do before each of the next statements, and the fate of the next batches. */
    var clients: map<nat, Client>
    var others: seq<seq<Action>>
    var fates: seq<Fate>
    ghost var trace: seq<Action>

    ghost predicate Valid()
      reads this
    {
      System(registry, clients) == Run(trace)
    }

    ghost predicate LeftAlone(id: nat)
      reads this
    {
      forall k, j :: 0 <= k < |others| && 0 <= j < |others[k]| ==> Leaves(others[k][j], id)
    }

    constructor (others: seq<seq<Action>>, fates: seq<Fate>)
      ensures Valid() && trace == [] && this.others == others && this.fates == fates
    {
      registry, clients, trace := Init.registry, Init.clients, [];
      this.others, this.fates := others, fates;
    }

    /** One action of the system. */
    method Perform(a: Action)
      requires Valid()
      modifies this
      ensures Valid() && System(registry, clients) == Step(old(System(registry, clients)), a)
      ensures others == old(others) && fates == old(fates) && trace == old(trace) + [a]
    {
      var next := Step(System(registry, clients), a);
      registry, clients := next.registry, next.clients;
      assert (trace + [a])[..|trace|] == trace;
      trace := trace + [a];
    }

    /** What other calls do before the next statement. */
    method Between(id: nat)
      requires Valid() && LeftAlone(id)
      modifies this
      ensures Valid() && LeftAlone(id)
      ensures id in old(clients) ==> id in clients && clients[id] == old(clients[id])
      ensures id !in old(clients) ==> id !in clients
    {
      if |others| == 0 { return; }
      var now := others[0];
      assert forall j :: 0 <= j < |now| ==> Leaves(now[j], id);
      others := others[1..];
      for j := 0 to |now|
        invariant Valid() && LeftAlone(id) && others == old(others)[1..]
        invariant id in old(clients) ==> id in clients && clients[id] == old(clients[id])
        invariant id !in old(clients) ==> id !in clients
      {
        assert Leaves(now[j], id);
        Perform(now[j]);
      }
    }

    /** Note where a call stands after a statement that wrote nothing. */
    method Arrive(id: nat, place: Place)
      requires Valid() && LeftAlone(id) && id in clients
      requires Move(registry, id, clients[id], Acknowledged) == (registry, clients[id].(place := place))
      modifies this`clients, this`trace
      ensures Valid() && LeftAlone(id) && clients == old(clients)[id := old(clients[id]).(place := place)]
    {
      clients := clients[id := clients[id].(place := place)];
      assert (trace + [Advance(id, Acknowledged)])[..|trace|] == trace;
      trace := trace + [Advance(id, Acknowledged)];
    }

    method ReadReceipt(c: Command) returns (o: Option<Outcome>)
      ensures o == Replay(registry, c)
    {
      if c.actor !in registry.active { return Some(Failed(Forbidden)); }
      if KeyOf(c) !in registry.receipts { return None; }
      var receipt := registry.receipts[KeyOf(c)];
      if receipt.fingerprint != FingerprintOf(c) { return Some(Failed(IdempotencyConflict)); }
      return Some(Answered(receipt.response));
    }

    /** The statements of the append batch, in order; the first that fails undoes those before it. */
    method AppendBatch(id: nat, c: Command, seen: TypeRow) returns (ok: bool)
      requires c.Append?
      modifies this`registry
      ensures registry == Batch(old(registry), id, c, seen) && ok == BatchHolds(old(registry), c, seen)
    {
      var before := registry;
      if c.actor !in registry.active { return false; }
      if KeyOf(c) in registry.receipts { return false; }
      registry := registry.(receipts := registry.receipts[KeyOf(c) := Receipt(FingerprintOf(c), AppendedAt(seen.lastIdx + 1, c.contract))]);
      if c.documentType !in registry.types || !RowMatches(c, seen, registry.types[c.documentType]) {
        registry := before;
        return false;
      }
      var record := NewRecord(c, seen.lastIdx);
      var registration := seen.registration.(latest := Some(record), updatedAt := c.occurredAt);
      registry := registry.(types := registry.types[c.documentType := TypeRow(seen.lastIdx + 1, registration)]);
      if seen.lastIdx + 1 < 0 || (c.documentType, seen.lastIdx + 1) in registry.contracts
         || ContractTaken(registry, c.documentType, c.contract) {
        registry := before;
        return false;
      }
      registry := registry.(contracts := registry.contracts[(c.documentType, seen.lastIdx + 1) := ContractRow(c.contract, record)],
                            history := registry.history + [Event(id, c, seen, before.types[c.documentType].registration, registration)]);
      return true;
    }

    /** The statements of the update batch, in order; the first that fails undoes those before it. */
    method UpdateBatch(id: nat, c: Command, seen: TypeRow) returns (ok: bool)
      requires c.Update?
      modifies this`registry
      ensures registry == Batch(old(registry), id, c, seen) && ok == BatchHolds(old(registry), c, seen)
    {
      var before := registry;
      if c.actor !in registry.active { return false; }
      if KeyOf(c) in registry.receipts { return false; }
      var registration := Built(c, seen);
      registry := registry.(receipts := registry.receipts[KeyOf(c) := Receipt(FingerprintOf(c), UpdatedTo(c.documentType, Etag(registration)))]);
      if c.documentType !in registry.types || Etag(registry.types[c.documentType].registration) != c.expected {
        registry := before;
        return false;
      }
      registry := registry.(types := registry.types[c.documentType := registry.types[c.documentType].(registration := registration)],
                            history := registry.history + [Event(id, c, seen, before.types[c.documentType].registration, registration)]);
      return true;
    }

    /** The batch with its fate: it may be refused, or go through without its caller hearing of it. */
    method TryBatch(id: nat, c: Command, seen: TypeRow) returns (acknowledged: bool)
      requires Valid() && LeftAlone(id)
      requires id in clients && clients[id].command == c && clients[id].place.Writing? && clients[id].place.reading.row == seen
      modifies this
      ensures Valid() && LeftAlone(id) && others == old(others) && id in clients && clients[id].command == c
      ensures var p := old(clients[id].place);
        clients[id].place == if acknowledged then Finished(Answered(ResponseTo(c, seen))) else Rechecking(p.attempt, p.reading)
    {
      var fate := if |fates| > 0 then fates[0] else Acknowledged;
      fates := if |fates| > 0 then fates[1..] else fates;
      ghost var moved := Move(registry, id, clients[id], fate);
      var p := clients[id].place;
      var ok := false;
      if fate != Refused {
        if c.Append? { ok := AppendBatch(id, c, seen); } else { ok := UpdateBatch(id, c, seen); }
      }
      acknowledged := ok && fate == Acknowledged;
      clients := clients[id := clients[id].(place :=
                   if acknowledged then Finished(Answered(ResponseTo(c, seen))) else Rechecking(p.attempt, p.reading))];
      assert moved == (registry, clients[id]);
      assert (trace + [Advance(id, fate)])[..|trace|] == trace;
      trace := trace + [Advance(id, fate)];
    }

    /** After a batch that was not acknowledged: its receipt, a duplicate, a row that did not change, or another try. */
    method LookAgain(id: nat, c: Command, attempt: nat, reading: Reading) returns (r: Option<Outcome>)
      requires Valid() && LeftAlone(id) && c.Append?
      requires id in clients && clients[id].command == c && clients[id].place == Rechecking(attempt, reading)
      modifies this
      ensures Valid() && LeftAlone(id) && id in clients && clients[id].command == c
      ensures clients[id].place == if r.Some? then Finished(r.value) else ReadingRow(attempt + 1)
    {
      Between(id);
      var concurrent := ReadReceipt(c);
      Arrive(id, if concurrent.Some? then Finished(concurrent.value) else CheckingDuplicate(attempt, reading));
      if concurrent.Some? { return concurrent; }
      Between(id);
      var duplicate := ContractTaken(registry, c.documentType, c.contract);
      Arrive(id, if duplicate then Finished(Failed(InvalidRequest)) else ReadingLatest(attempt, reading));
      if duplicate { return Some(Failed(InvalidRequest)); }
      Between(id);
      r := ReadLatest(id, c, attempt, reading);
    }

    method ReadLatest(id: nat, c: Command, attempt: nat, reading: Reading) returns (r: Option<Outcome>)
      requires Valid() && LeftAlone(id) && c.Append?
      requires id in clients && clients[id].command == c && clients[id].place == ReadingLatest(attempt, reading)
      modifies this
      ensures Valid() && LeftAlone(id) && id in clients && clients[id].command == c
      ensures clients[id].place == if r.Some? then Finished(r.value) else ReadingRow(attempt + 1)
    {
      r := None;
      if c.documentType !in registry.types {
        r := Some(Failed(NotFound));
      } else {
        var latest := registry.types[c.documentType];
        if latest.lastIdx == reading.row.lastIdx && Etag(latest.registration) == Etag(reading.row.registration) {
          r := Some(Failed(BatchFailed));
        }
      }
      Arrive(id, if r.Some? then Finished(r.value) else ReadingRow(attempt + 1));
    }

    /** The whole append is one call of the system, so everything proved of calls holds of it. */
    method Append(id: nat, c: Command) returns (r: Outcome)
      requires Valid() && LeftAlone(id) && id !in clients && c.Append?
      modifies this
      ensures Valid() && id in clients && clients[id].command == c && clients[id].place == Finished(r)
    {
      Perform(Begin(id, c));
      Between(id);
      var previous := ReadReceipt(c);
      Arrive(id, if previous.Some? then Finished(previous.value) else ReadingRow(0));
      if previous.Some? { return previous.value; }
      for attempt := 0 to MAX_ATTEMPTS
        invariant Valid() && LeftAlone(id) && id in clients && clients[id].command == c
        invariant clients[id].place == ReadingRow(attempt)
      {
        var done := Attempt(id, c, attempt);
        if done.Some? { return done.value; }
      }
      Arrive(id, Finished(Failed(ContentionExceeded)));
      return Failed(ContentionExceeded);
    }

    /** One round of the loop: read the row, try the batch, look again if it was not acknowledged. */
    method Attempt(id: nat, c: Command, attempt: nat) returns (r: Option<Outcome>)
      requires Valid() && LeftAlone(id) && c.Append? && attempt < MAX_ATTEMPTS
      requires id in clients && clients[id].command == c && clients[id].place == ReadingRow(attempt)
      modifies this
      ensures Valid() && LeftAlone(id) && id in clients && clients[id].command == c
      ensures clients[id].place == if r.Some? then Finished(r.value) else ReadingRow(attempt + 1)
    {
      Between(id);
      if c.documentType !in registry.types {
        Arrive(id, Finished(Failed(NotFound)));
        return Some(Failed(NotFound));
      }
      var reading := Read(registry, c.documentType);
      Arrive(id, Writing(attempt, reading));
      Between(id);
      var acknowledged := TryBatch(id, c, reading.row);
      if acknowledged { return Some(Answered(AppendedAt(reading.row.lastIdx + 1, c.contract))); }
      r := LookAgain(id, c, attempt, reading);
    }

    /** The service reads the row, then the repository replays, writes once and looks for the reason of a failure. */
    method Update(id: nat, c: Command) returns (r: Outcome)
      requires Valid() && LeftAlone(id) && id !in clients && c.Update?
      modifies this
      ensures Valid() && id in clients && clients[id].command == c && clients[id].place == Finished(r)
    {
      Perform(Begin(id, c));
      Between(id);
      if c.actor !in registry.active {
        Arrive(id, Finished(Failed(Forbidden)));
        return Failed(Forbidden);
      }
      if c.documentType !in registry.types {
        Arrive(id, Finished(Failed(NotFound)));
        return Failed(NotFound);
      }
      if !Complete(Built(c, registry.types[c.documentType])) {
        Arrive(id, Finished(Failed(InvalidRequest)));
        return Failed(InvalidRequest);
      }
      var reading := Read(registry, c.documentType);
      Arrive(id, Replaying(Some(reading)));
      r := UpdateFrom(id, c, reading);
    }

    method UpdateFrom(id: nat, c: Command, reading: Reading) returns (r: Outcome)
      requires Valid() && LeftAlone(id) && c.Update?
      requires id in clients && clients[id].command == c && clients[id].place == Replaying(Some(reading))
      modifies this
      ensures Valid() && id in clients && clients[id].command == c && clients[id].place == Finished(r)
    {
      Between(id);
      var previous := ReadReceipt(c);
      Arrive(id, if previous.Some? then Finished(previous.value) else Writing(0, reading));
      if previous.Some? { return previous.value; }
      Between(id);
      var acknowledged := TryBatch(id, c, reading.row);
      if acknowledged { return Answered(ResponseTo(c, reading.row)); }
      r := ExplainUpdate(id, c, reading);
    }

    /** After an update that was not acknowledged: its receipt, or why it cannot have gone through. */
    method ExplainUpdate(id: nat, c: Command, reading: Reading) returns (r: Outcome)
      requires Valid() && LeftAlone(id) && c.Update?
      requires id in clients && clients[id].command == c && clients[id].place == Rechecking(0, reading)
      modifies this
      ensures Valid() && id in clients && clients[id].command == c && clients[id].place == Finished(r)
    {
      Between(id);
      var concurrent := ReadReceipt(c);
      Arrive(id, if concurrent.Some? then Finished(concurrent.value) else ReadingLatest(0, reading));
      if concurrent.Some? { return concurrent.value; }
      Between(id);
      r := ReasonFor(c, reading);
      Arrive(id, Finished(r));
    }

    method ReasonFor(c: Command, reading: Reading) returns (r: Outcome)
      requires c.Update?
      ensures Finished(r) == UpdatePlace(registry, c, ReadingLatest(0, reading))
    {
      if c.actor !in registry.active { return Failed(Forbidden); }
      if c.documentType !in registry.types { return Failed(NotFound); }
      if Etag(registry.types[c.documentType].registration) != c.expected { return Failed(PreconditionFailed); }
      return Failed(BatchFailed);
    }
  }
}
