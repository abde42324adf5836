/**
 * What the writes of the registry say and what their calls answer: a registration holds the last word on
 * each of its fields, an answer tells of the effect it stands for, and a call left alone ends in one way.
 */
module RegistryLaws {
  import opened Wrappers
  import opened RegistryTables
  import opened RegistryProtocol

  // ---------------------------------------------------------------- requests and their keys

  /** Two calls ask the same exactly if all they ask is the same, whoever asks and when. */
  lemma FingerprintsTellRequests(c: Command, d: Command)
    ensures FingerprintOf(c) == FingerprintOf(d) <==>
      && c.documentType == d.documentType
      && ((c.Append? && d.Append? && c.contract == d.contract && c.reason == d.reason)
          || (c.Update? && d.Update? && c.patch == d.patch && c.expected == d.expected))
  {
  }

  // ---------------------------------------------------------------- the last word on a field

  datatype Field = InternalName | Enabled | TypeCardBundle | ViewBundle | BuiltinOperator
  datatype Value = Text(text: string) | Flag(flag: bool) | Reference(reference: Option<string>)

  /** What a command says of a field, if it names it. */
  function Said(c: Command, f: Field): Option<Value> {
    if c.Append? then None
    else match f
      case InternalName => if c.patch.internalName.Some? then Some(Text(c.patch.internalName.value)) else None
      case Enabled => if c.patch.enabled.Some? then Some(Flag(c.patch.enabled.value)) else None
      case TypeCardBundle => if c.patch.typeCardBundle.Some? then Some(Reference(c.patch.typeCardBundle)) else None
      case ViewBundle => if c.patch.viewBundle.Some? then Some(Reference(c.patch.viewBundle)) else None
      case BuiltinOperator => if c.patch.builtinOperator.Some? then Some(Reference(c.patch.builtinOperator.value)) else None
  }

  function Has(g: Registration, f: Field): Value {
    match f
    case InternalName => Text(g.settings.internalName)
    case Enabled => Flag(g.settings.enabled)
    case TypeCardBundle => Reference(g.settings.typeCardBundle)
    case ViewBundle => Reference(g.settings.viewBundle)
    case BuiltinOperator => Reference(g.settings.builtinOperator)
  }

  /** A type is created under a name, switched off and without bundles or operator. */
  function Born(name: string, f: Field): Value {
    match f
    case InternalName => Text(name)
    case Enabled => Flag(false)
    case _ => Reference(None)
  }

  function LastSaid(history: seq<Event>, t: string, f: Field, name: string): Value {
    if history == [] then Born(name, f)
    else
      var c := history[|history| - 1].command;
      if c.documentType == t && Said(c, f).Some? then Said(c, f).value else LastSaid(history[..|history| - 1], t, f, name)
  }

  function LastAppend(history: seq<Event>, t: string): Option<Command> {
    if history == [] then None
    else
      var c := history[|history| - 1].command;
      if c.documentType == t && c.Append? then Some(c) else LastAppend(history[..|history| - 1], t)
  }

  /** When the type was last written, or created. */
  function LastTime(history: seq<Event>, t: string, at: int): int {
    if history == [] then at
    else
      var c := history[|history| - 1].command;
      if c.documentType == t then c.occurredAt else LastTime(history[..|history| - 1], t, at)
  }

  function Appends(history: seq<Event>, t: string): nat {
    if history == [] then 0
    else
      var c := history[|history| - 1].command;
      Appends(history[..|history| - 1], t) + if c.documentType == t && c.Append? then 1 else 0
  }

  /** The name and time a type was created with: the first creation counts. */
  function CreatedAs(actions: seq<Action>, t: string): Option<(string, int)> {
    if actions == [] then None
    else
      var earlier, a := CreatedAs(actions[..|actions| - 1], t), actions[|actions| - 1];
      if earlier.Some? then earlier else if a.Create? && a.documentType == t then Some((a.name, a.at)) else None
  }

  /** The row says of each field what was said last, and of the newest contract what its append said. */
  ghost predicate Stands(row: TypeRow, history: seq<Event>, t: string, name: string, at: int) {
    && row.registration.documentType == t && row.registration.updatedAt == LastTime(history, t, at)
    && (forall f :: Has(row.registration, f) == LastSaid(history, t, f, name))
    && row.lastIdx == Appends(history, t) - 1
    && LatestStands(row.registration.latest, LastAppend(history, t), t, Appends(history, t))
  }

  predicate LatestStands(latest: Option<ContractRecord>, c: Option<Command>, t: string, appends: nat) {
    match c
    case None => latest.None?
    case Some(c) =>
      && c.Append? && latest.Some? && latest.value.documentType == t && latest.value.idx == appends - 1
      && latest.value.contract == c.contract && latest.value.createdAt == c.occurredAt
  }

  lemma {:induction false} OneMoreWord(history: seq<Event>, e: Event, t: string, f: Field, name: string, at: int)
    ensures var c := e.command; var longer := history + [e];
      && LastSaid(longer, t, f, name) == (if c.documentType == t && Said(c, f).Some? then Said(c, f).value else LastSaid(history, t, f, name))
      && LastAppend(longer, t) == (if c.documentType == t && c.Append? then Some(c) else LastAppend(history, t))
      && LastTime(longer, t, at) == (if c.documentType == t then c.occurredAt else LastTime(history, t, at))
      && Appends(longer, t) == Appends(history, t) + if c.documentType == t && c.Append? then 1 else 0
  {
    assert (history + [e])[..|history|] == history;
  }

  /** A write of a current row has the last word on what it names, and leaves the rest. */
  lemma {:induction false} BatchStands(r: Registry, writer: nat, c: Command, seen: TypeRow, t: string, name: string, at: int)
    requires BatchHolds(r, c, seen) && seen.registration == r.types[c.documentType].registration
    requires t in r.types && Stands(r.types[t], r.history, t, name, at)
    ensures var r' := Batch(r, writer, c, seen); Stands(r'.types[t], r'.history, t, name, at)
  {
    var r' := Batch(r, writer, c, seen);
    var e := Event(writer, c, seen, r.types[c.documentType].registration, Built(c, seen));
    OneMoreWord(r.history, e, t, InternalName, name, at);
    forall f ensures Has(r'.types[t].registration, f) == LastSaid(r'.history, t, f, name) {
      OneMoreWord(r.history, e, t, f, name, at);
    }
  }

  /**
   * Whatever appends and updates interleave: with tags shown before the call and no registration coming back,
   * each setting of a type is what the last update that names it says, or what it was created with; its newest
   * contract is that of its last append, numbered by the appends before it; its time is that of its last write.
   */
  lemma {:induction false} LastWordStands(actions: seq<Action>, t: string)
    requires TagsKnown(actions) && NoRecurrence(Run(actions).registry.history)
    ensures CreatedAs(actions, t).Some? <==> t in Run(actions).registry.types
    ensures t in Run(actions).registry.types ==>
      var r := Run(actions).registry; var (name, at) := CreatedAs(actions, t).value;
      Stands(r.types[t], r.history, t, name, at)
  {
    if actions != [] {
      var earlier, a := actions[..|actions| - 1], actions[|actions| - 1];
      TagsKnownEarlier(actions);
      var s := Run(earlier);
      StepGrows(s, a);
      EarlierToo(s.registry.history, Run(actions).registry.history);
      LastWordStands(earlier, t);
      if a.Advance? && a.id in s.clients && s.clients[a.id].place.Writing? && a.fate != Refused {
        RunIsCurrent(earlier);
        var c := s.clients[a.id];
        assert TagBehind(s.registry, c);
        if BatchHolds(s.registry, c.command, c.place.reading.row) {
          if c.command.Update? { UpdateIsCurrent(s.registry, c); }
          if t in s.registry.types {
            var (name, at) := CreatedAs(earlier, t).value;
            BatchStands(s.registry, a.id, c.command, c.place.reading.row, t, name, at);
          }
        }
      } else if a.Create? && a.documentType == t && t !in s.registry.types {
        RunIsCurrent(earlier);
        NothingSaid(s.registry.history, t, a.name, a.at);
      }
    }
  }

  lemma {:induction false} TagsKnownEarlier(actions: seq<Action>)
    requires actions != [] && TagsKnown(actions)
    ensures TagsKnown(actions[..|actions| - 1])
  {
    var earlier := actions[..|actions| - 1];
    forall k | 0 <= k < |earlier| ensures TagKnown(Run(earlier[..k]), earlier[k]) {
      assert earlier[..k] == actions[..k] && TagKnown(Run(actions[..k]), actions[k]);
    }
  }

  lemma StepGrows(s: System, a: Action)
    ensures s.registry.history <= Step(s, a).registry.history
  {
  }

  lemma {:induction false} NothingSaid(history: seq<Event>, t: string, name: string, at: int)
    requires forall j :: 0 <= j < |history| ==> history[j].command.documentType != t
    ensures LastAppend(history, t) == None && LastTime(history, t, at) == at && Appends(history, t) == 0
    ensures forall f :: LastSaid(history, t, f, name) == Born(name, f)
  {
    if history != [] {
      NothingSaid(history[..|history| - 1], t, name, at);
    }
  }

  // ---------------------------------------------------------------- one write

  /** A field that is named is what the command says, and one that is not is what it was. */
  predicate Keeps(c: Command, before: Registration, after: Registration, f: Field) {
    (Said(c, f).Some? ==> Has(after, f) == Said(c, f).value) && (Said(c, f).None? ==> Has(after, f) == Has(before, f))
  }

  /** Each write changes just the fields it names, and the newest contract exactly if it appends one. */
  lemma {:induction false} WritesChangeWhatTheyName(actions: seq<Action>, i: nat, f: Field)
    requires TagsKnown(actions) && NoRecurrence(Run(actions).registry.history)
    requires i < |Run(actions).registry.history|
    ensures var e := Run(actions).registry.history[i];
      && Keeps(e.command, e.replaced, e.stored, f)
      && e.stored.documentType == e.command.documentType == e.replaced.documentType && e.stored.updatedAt == e.command.occurredAt
      && (e.command.Update? ==> e.stored.latest == e.replaced.latest)
      && (e.command.Append? ==>
            && e.stored.settings == e.replaced.settings && e.stored.latest.Some?
            && e.stored.latest.value.contract == e.command.contract && e.stored.latest.value.createdAt == e.command.occurredAt
            && e.stored.latest.value.idx == Appends(Run(actions).registry.history[..i], e.command.documentType))
  {
    UpdatesAreComputedFromWhatTheyReplace(actions, i);
    AppendsAreComputedFromWhatTheyReplace(actions, i);
    RunIsNumbered(actions);
    var e := Run(actions).registry.history[i];
    assert Numbered(Run(actions).registry, i);
  }

  // ---------------------------------------------------------------- contracts and answers

  /** An append stored its contract under the number of appends before it. */
  ghost predicate Numbered(r: Registry, i: nat)
    requires i < |r.history|
  {
    var e := r.history[i];
    var t, n := e.command.documentType, Appends(r.history[..i], e.command.documentType);
    && e.replaced.documentType == t
    && (e.command.Append? ==>
          && e.seen.lastIdx + 1 == n && (t, n) in r.contracts && r.contracts[(t, n)].contract == e.command.contract
          && r.contracts[(t, n)].record.documentType == t && r.contracts[(t, n)].record.idx == n
          && r.contracts[(t, n)].record.contract == e.command.contract && r.contracts[(t, n)].record.createdAt == e.command.occurredAt)
  }

  ghost predicate AllNumbered(r: Registry) {
    && (forall i :: 0 <= i < |r.history| ==> Numbered(r, i))
    && (forall t :: t in r.types ==> r.types[t].lastIdx + 1 == Appends(r.history, t))
    && (forall j :: 0 <= j < |r.history| ==> r.history[j].command.documentType in r.types)
  }

  lemma {:induction false} EarlierStayNumbered(r: Registry, writer: nat, c: Command, seen: TypeRow, i: nat)
    requires ContractsExact(r) && AllNumbered(r) && BatchHolds(r, c, seen) && i < |r.history|
    ensures Numbered(Batch(r, writer, c, seen), i)
  {
    var r' := Batch(r, writer, c, seen);
    assert r'.history[..i] == r.history[..i] && r'.history[i] == r.history[i] && Numbered(r, i);
  }

  lemma {:induction false} NewestIsNumbered(r: Registry, writer: nat, c: Command, seen: TypeRow)
    requires ContractsExact(r) && AllNumbered(r) && BatchHolds(r, c, seen)
    ensures Numbered(Batch(r, writer, c, seen), |r.history|)
  {
    assert Batch(r, writer, c, seen).history[..|r.history|] == r.history;
  }

  lemma {:induction false} BatchNumbers(r: Registry, writer: nat, c: Command, seen: TypeRow)
    requires ContractsExact(r) && AllNumbered(r) && BatchHolds(r, c, seen)
    ensures AllNumbered(Batch(r, writer, c, seen))
  {
    var r' := Batch(r, writer, c, seen);
    var e := Event(writer, c, seen, r.types[c.documentType].registration, Built(c, seen));
    forall t | t in r'.types ensures r'.types[t].lastIdx + 1 == Appends(r'.history, t) {
      OneMoreWord(r.history, e, t, InternalName, "", 0);
    }
    NewestIsNumbered(r, writer, c, seen);
    forall i | 0 <= i < |r'.history| ensures Numbered(r', i) {
      if i < |r.history| { EarlierStayNumbered(r, writer, c, seen, i); }
    }
    forall j | 0 <= j < |r'.history| ensures r'.history[j].command.documentType in r'.types {
      assert j < |r.history| ==> r'.history[j] == r.history[j];
    }
  }

  lemma {:induction false} RunIsNumbered(actions: seq<Action>)
    ensures AllNumbered(Run(actions).registry)
  {
    if actions != [] {
      var earlier, a := actions[..|actions| - 1], actions[|actions| - 1];
      RunIsNumbered(earlier);
      RunKeeps(earlier);
      var s := Run(earlier);
      if a.Advance? && a.id in s.clients && s.clients[a.id].place.Writing? && a.fate != Refused {
        var c := s.clients[a.id];
        if BatchHolds(s.registry, c.command, c.place.reading.row) {
          BatchNumbers(s.registry, a.id, c.command, c.place.reading.row);
        }
      } else if a.Create? && a.documentType !in s.registry.types {
        NothingSaid(s.registry.history, a.documentType, a.name, a.at);
        SameHistoryNumbered(s.registry, Run(actions).registry);
      } else {
        SameHistoryNumbered(s.registry, Run(actions).registry);
      }
    }
  }

  lemma {:induction false} SameHistoryNumbered(r: Registry, r': Registry)
    requires AllNumbered(r) && r'.history == r.history && r'.contracts == r.contracts
    requires forall t :: t in r.types ==> t in r'.types
    requires forall t :: t in r'.types ==> r'.types[t].lastIdx + 1 == Appends(r.history, t)
    ensures AllNumbered(r')
  {
    forall i | 0 <= i < |r'.history| ensures Numbered(r', i) {
      assert Numbered(r, i);
    }
  }

  /** The effect an answer stands for: of the same key and request, the number its contract has or the tag it stored. */
  ghost predicate AnswersFor(r: Registry, c: Command, response: Response, i: nat)
    requires i < |r.history|
  {
    var e := r.history[i];
    && KeyOf(e.command) == KeyOf(c) && FingerprintOf(e.command) == FingerprintOf(c)
    && if c.Append? then
         response == AppendedAt(Appends(r.history[..i], c.documentType), c.contract)
         && (c.documentType, Appends(r.history[..i], c.documentType)) in r.contracts
         && r.contracts[(c.documentType, Appends(r.history[..i], c.documentType))].contract == c.contract
       else response == UpdatedTo(c.documentType, Etag(e.stored))
  }

  /** A call is only answered with what an effect of its own request gave: where its contract stands, or the tag of what it stored. */
  lemma {:induction false} AnswersTellTheirEffect(actions: seq<Action>, id: nat)
    requires id in Run(actions).clients && Run(actions).clients[id].place.Finished? && Run(actions).clients[id].place.outcome.Answered?
    ensures var s := Run(actions); var c := s.clients[id];
      exists i :: 0 <= i < |s.registry.history| && AnswersFor(s.registry, c.command, c.place.outcome.response, i)
  {
    RunKeeps(actions);
    RunIsNumbered(actions);
    var s := Run(actions);
    var c := s.clients[id];
    assert ClientSound(s.registry, c) && HasEvent(s.registry.history, KeyOf(c.command));
    var i :| 0 <= i < |s.registry.history| && KeyOf(s.registry.history[i].command) == KeyOf(c.command);
    EffectAnswers(s.registry, c, i);
  }

  lemma {:induction false} EffectAnswers(r: Registry, c: Client, i: nat)
    requires AllNumbered(r) && ClientSound(r, c) && c.place.Finished? && c.place.outcome.Answered?
    requires i < |r.history| && EventSound(r, r.history[i]) && KeyOf(r.history[i].command) == KeyOf(c.command)
    ensures AnswersFor(r, c.command, c.place.outcome.response, i)
  {
    assert Numbered(r, i);
    var e := r.history[i];
    FingerprintsTellRequests(e.command, c.command);
  }

  // ---------------------------------------------------------------- a call left alone

  /** Up to `n` statements of one call with nothing in between, none refused and every reply received. */
  function Alone(r: Registry, id: nat, c: Client, n: nat): (Registry, Client)
    decreases n
  {
    if n == 0 || c.place.Finished? then (r, c)
    else
      var (r', c') := Move(r, id, c, Acknowledged);
      Alone(r', id, c', n - 1)
  }

  function Begun(r: Registry, c: Command): Client {
    Client(c, WritesTo(r.history, c.documentType), if c.Append? then Replaying(None) else ReadingRow(0))
  }

  /** A new call begins with its first statement, and each of its statements moves it and the tables; the others stay where they are. */
  lemma StepsAreStatements(s: System, id: nat, c: Command, fate: Fate, t: string, name: string, at: int, actors: set<string>)
    ensures Step(s, RegistryProtocol.Begin(id, c)) == if id in s.clients then s else System(s.registry, s.clients[id := Begun(s.registry, c)])
    ensures id in s.clients ==>
      Step(s, Advance(id, fate)) == System(Move(s.registry, id, s.clients[id], fate).0, s.clients[id := Move(s.registry, id, s.clients[id], fate).1])
    ensures var r := Step(s, Create(t, name, at)).registry;
      && t in r.types && r.contracts == s.registry.contracts && r.active == s.registry.active && r.history == s.registry.history
      && r.receipts == s.registry.receipts && r.types.Keys == s.registry.types.Keys + {t}
      && (forall u :: u in s.registry.types ==> r.types[u] == s.registry.types[u])
    ensures Step(s, SetActive(actors)).registry == s.registry.(active := actors)
  {
  }

  /** The key was used before: its answer if for the same request, else a conflict. */
  function Repeats(r: Registry, c: Command): Option<Outcome> {
    if KeyOf(c) !in r.receipts then None
    else if r.receipts[KeyOf(c)].fingerprint == FingerprintOf(c) then Some(Answered(r.receipts[KeyOf(c)].response))
    else Some(Failed(IdempotencyConflict))
  }

  /** Nothing changed but the receipt, the history, and the rows this names. */
  predicate OneMoreAppend(r: Registry, r': Registry, c: Command)
    requires c.Append? && c.documentType in r.types
  {
    var t, n := c.documentType, r.types[c.documentType].lastIdx + 1;
    && r'.active == r.active && |r'.history| == |r.history| + 1
    && r'.types.Keys == r.types.Keys && (forall u :: u in r.types && u != t ==> r'.types[u] == r.types[u])
    && r'.types[t].lastIdx == n && r'.types[t].registration.settings == r.types[t].registration.settings
    && (t, n) !in r.contracts && r'.contracts.Keys == r.contracts.Keys + {(t, n)} && r'.contracts[(t, n)].contract == c.contract
    && (forall k :: k in r.contracts ==> r'.contracts[k] == r.contracts[k])
    && r'.receipts.Keys == r.receipts.Keys + {KeyOf(c)}
  }

  /**
   * How an append ends if nobody interferes: without authority forbidden; with a key used before as that says;
   * of no type not found; of a contract the type has invalid; and in every other case it is answered with the
   * next number, under which its contract now stands.
   */
  ghost predicate AppendEnds(r: Registry, c: Command, r': Registry, o: Outcome)
    requires c.Append?
  {
    if c.actor !in r.active then r' == r && o == Failed(Forbidden)
    else if Repeats(r, c).Some? then r' == r && o == Repeats(r, c).value
    else if c.documentType !in r.types then r' == r && o == Failed(NotFound)
    else if exists k :: k in r.contracts && k.0 == c.documentType && r.contracts[k].contract == c.contract then r' == r && o == Failed(InvalidRequest)
    else o == Answered(AppendedAt(r.types[c.documentType].lastIdx + 1, c.contract)) && OneMoreAppend(r, r', c)
  }

  lemma AppendStarts(r: Registry, id: nat, c: Command)
    requires c.Append?
    ensures var stopped := c.actor !in r.active || Repeats(r, c).Some? || c.documentType !in r.types;
      && (stopped ==> (var (r', c') := Alone(r, id, Begun(r, c), 5); c'.place.Finished? && AppendEnds(r, c, r', c'.place.outcome)))
      && (!stopped ==> Alone(r, id, Begun(r, c), 5) == Alone(r, id, Begun(r, c).(place := Writing(0, Read(r, c.documentType))), 3))
  {
  }

  lemma AppendWrites(r: Registry, id: nat, c: Command)
    requires ContractsExact(r) && c.Append? && c.actor in r.active && Repeats(r, c).None? && c.documentType in r.types
    ensures var (r', c') := Alone(r, id, Begun(r, c).(place := Writing(0, Read(r, c.documentType))), 3);
      c'.place.Finished? && AppendEnds(r, c, r', c'.place.outcome)
  {
    var writing := Begun(r, c).(place := Writing(0, Read(r, c.documentType)));
    if !BatchHolds(r, c, r.types[c.documentType]) {
      assert ContractTaken(r, c.documentType, c.contract);
    }
  }

  lemma {:induction false} AppendingEnds(actions: seq<Action>, id: nat, c: Command)
    requires c.Append?
    ensures var r := Run(actions).registry; var (r', c') := Alone(r, id, Begun(r, c), 5);
      c'.place.Finished? && AppendEnds(r, c, r', c'.place.outcome)
  {
    RunKeeps(actions);
    var r := Run(actions).registry;
    AppendStarts(r, id, c);
    if c.actor in r.active && Repeats(r, c).None? && c.documentType in r.types {
      AppendWrites(r, id, c);
    }
  }

  /** Only the type's registration changed, to one that keeps what the command does not name. */
  ghost predicate OneMoreUpdate(r: Registry, r': Registry, c: Command, stored: Registration)
    requires c.Update? && c.documentType in r.types
  {
    && r'.active == r.active && |r'.history| == |r.history| + 1 && r'.contracts == r.contracts
    && r'.types == r.types[c.documentType := TypeRow(r.types[c.documentType].lastIdx, stored)]
    && stored.documentType == c.documentType && stored.updatedAt == c.occurredAt
    && stored.latest == r.types[c.documentType].registration.latest
    && (forall f :: Keeps(c, r.types[c.documentType].registration, stored, f))
    && r'.receipts.Keys == r.receipts.Keys + {KeyOf(c)}
  }

  /** What the field would be after this command. */
  function Wanted(r: Registry, c: Command, f: Field): Value
    requires c.documentType in r.types
  {
    if Said(c, f).Some? then Said(c, f).value else Has(r.types[c.documentType].registration, f)
  }

  /** The command asks for an enabled type without a contract, a bundle or an operator. */
  predicate Incomplete(r: Registry, c: Command)
    requires c.documentType in r.types
  {
    && Wanted(r, c, Enabled) == Flag(true)
    && (|| r.types[c.documentType].registration.latest.None? || Wanted(r, c, TypeCardBundle) == Reference(None)
        || Wanted(r, c, ViewBundle) == Reference(None) || Wanted(r, c, BuiltinOperator) == Reference(None))
  }

  /**
   * How an update ends if nobody interferes: forbidden, not found, invalid if the enabled type would lack
   * something, as its key says if it was used before, refused for another tag than the type's; and in every
   * other case it is stored and answered with the tag of what is now there.
   */
  ghost predicate UpdateEnds(r: Registry, c: Command, r': Registry, o: Outcome)
    requires c.Update?
  {
    if c.actor !in r.active then r' == r && o == Failed(Forbidden)
    else if c.documentType !in r.types then r' == r && o == Failed(NotFound)
    else if Incomplete(r, c) then r' == r && o == Failed(InvalidRequest)
    else if Repeats(r, c).Some? then r' == r && o == Repeats(r, c).value
    else if Etag(r.types[c.documentType].registration) != c.expected then r' == r && o == Failed(PreconditionFailed)
    else
      && c.documentType in r'.types && o == Answered(UpdatedTo(c.documentType, Etag(r'.types[c.documentType].registration)))
      && OneMoreUpdate(r, r', c, r'.types[c.documentType].registration)
  }

  lemma UpdateStarts(r: Registry, id: nat, c: Command)
    requires c.Update?
    ensures var stopped := c.actor !in r.active || c.documentType !in r.types || Incomplete(r, c) || Repeats(r, c).Some?;
      && (stopped ==> (var (r', c') := Alone(r, id, Begun(r, c), 5); c'.place.Finished? && UpdateEnds(r, c, r', c'.place.outcome)))
      && (!stopped ==> Alone(r, id, Begun(r, c), 5) == Alone(r, id, Begun(r, c).(place := Writing(0, Read(r, c.documentType))), 3))
  {
  }

  lemma UpdateWrites(r: Registry, id: nat, c: Command)
    requires c.Update? && c.actor in r.active && Repeats(r, c).None? && c.documentType in r.types && !Incomplete(r, c)
    ensures var (r', c') := Alone(r, id, Begun(r, c).(place := Writing(0, Read(r, c.documentType))), 3);
      c'.place.Finished? && UpdateEnds(r, c, r', c'.place.outcome)
  {
    var writing := Begun(r, c).(place := Writing(0, Read(r, c.documentType)));
    if !BatchHolds(r, c, r.types[c.documentType]) {
    } else {
      forall f ensures Keeps(c, r.types[c.documentType].registration, Built(c, r.types[c.documentType]), f) {}
    }
  }

  lemma {:induction false} UpdatingEnds(actions: seq<Action>, id: nat, c: Command)
    requires c.Update?
    ensures var r := Run(actions).registry; var (r', c') := Alone(r, id, Begun(r, c), 5);
      c'.place.Finished? && UpdateEnds(r, c, r', c'.place.outcome)
  {
    var r := Run(actions).registry;
    UpdateStarts(r, id, c);
    if c.actor in r.active && c.documentType in r.types && !Incomplete(r, c) && Repeats(r, c).None? {
      UpdateWrites(r, id, c);
    }
  }

  // ---------------------------------------------------------------- a call that lost a race

  /** The row is not the one this call read. */
  predicate Outrun(r: Registry, c: Client) {
    && c.place.Writing? && c.command.documentType in r.types
    && (r.types[c.command.documentType].lastIdx != c.place.reading.row.lastIdx
        || r.types[c.command.documentType].registration != c.place.reading.row.registration)
  }

  lemma OutrunAppendRetries(r: Registry, id: nat, c: Client)
    requires ContractsExact(r) && c.command.Append? && Outrun(r, c) && c.command.actor in r.active && Repeats(r, c.command).None?
    requires !ContractTaken(r, c.command.documentType, c.command.contract)
    ensures Alone(r, id, c, 9) == Alone(r, id, c.(place := ReadingRow(c.place.attempt + 1)), 5)
  {
    var attempt, reading := c.place.attempt, c.place.reading;
  }

  lemma RefusedAppendEnds(r: Registry, id: nat, c: Client)
    requires ContractsExact(r) && c.command.Append? && c.place.Writing? && c.command.documentType in r.types
    requires c.command.actor !in r.active || Repeats(r, c.command).Some? || ContractTaken(r, c.command.documentType, c.command.contract)
    ensures var (r', c') := Alone(r, id, c, 9); c'.place.Finished? && AppendEnds(r, c.command, r', c'.place.outcome)
  {
    var attempt, reading := c.place.attempt, c.place.reading;
  }

  lemma CurrentAppendEnds(r: Registry, id: nat, c: Client, n: nat)
    requires ContractsExact(r) && c.command.Append? && c.place.Writing? && c.command.documentType in r.types && !Outrun(r, c)
    requires c.command.actor in r.active && Repeats(r, c.command).None? && !ContractTaken(r, c.command.documentType, c.command.contract)
    ensures var (r', c') := Alone(r, id, c, n + 1); c'.place.Finished? && AppendEnds(r, c.command, r', c'.place.outcome)
  {
  }

  lemma FreshAppendEnds(r: Registry, id: nat, c: Client)
    requires ContractsExact(r) && c.command.Append? && c.place.ReadingRow? && c.command.documentType in r.types
    requires c.command.actor in r.active && Repeats(r, c.command).None? && !ContractTaken(r, c.command.documentType, c.command.contract)
    ensures var (r', c') := Alone(r, id, c, 5);
      && c'.place.Finished?
      && if c.place.attempt >= MAX_ATTEMPTS then r' == r && c'.place.outcome == Failed(ContentionExceeded)
         else AppendEnds(r, c.command, r', c'.place.outcome)
  {
    if c.place.attempt < MAX_ATTEMPTS {
      var writing := c.(place := Writing(c.place.attempt, Read(r, c.command.documentType)));
      CurrentAppendEnds(r, id, writing, 3);
    }
  }

  /**
   * An append about to write, whatever others did since it read its row, ends as an append of the present state
   * if nobody interferes any more: it retries with the row as it is, unless it has no attempt left.
   */
  lemma {:induction false} ContendedAppendEnds(actions: seq<Action>, id: nat)
    requires id in Run(actions).clients && Run(actions).clients[id].command.Append? && Run(actions).clients[id].place.Writing?
    ensures var r, c := Run(actions).registry, Run(actions).clients[id]; var (r', c') := Alone(r, id, c, 9);
      && c'.place.Finished?
      && (c.place.attempt < 15 ==> AppendEnds(r, c.command, r', c'.place.outcome))
      && (c.place.attempt >= 15 ==> AppendEnds(r, c.command, r', c'.place.outcome) || (r' == r && c'.place.outcome == Failed(ContentionExceeded)))
  {
    RunKeeps(actions);
    var r, c := Run(actions).registry, Run(actions).clients[id];
    assert ClientSound(r, c);
    if c.command.actor !in r.active || Repeats(r, c.command).Some? || ContractTaken(r, c.command.documentType, c.command.contract) {
      RefusedAppendEnds(r, id, c);
    } else if Outrun(r, c) {
      OutrunAppendRetries(r, id, c);
      FreshAppendEnds(r, id, c.(place := ReadingRow(c.place.attempt + 1)));
    } else {
      CurrentAppendEnds(r, id, c, 8);
    }
  }

  ghost predicate WrittenUpdateEnds(r: Registry, d: Command, r': Registry, o: Outcome)
    requires d.Update? && d.documentType in r.types
  {
    && (o == Failed(Forbidden) <==> d.actor !in r.active)
    && (d.actor in r.active && Repeats(r, d).Some? ==> r' == r && o == Repeats(r, d).value)
    && (d.actor in r.active && Repeats(r, d).None? ==>
          && (o == Failed(PreconditionFailed) <==> Etag(r.types[d.documentType].registration) != d.expected)
          && (o.Answered? <==> Etag(r.types[d.documentType].registration) == d.expected))
    && (o.Failed? ==> r' == r)
  }

  lemma WritingUpdateEnds(r: Registry, id: nat, c: Client)
    requires c.command.Update? && c.place.Writing? && c.command.documentType in r.types
    ensures var (r', c') := Alone(r, id, c, 3); c'.place.Finished? && WrittenUpdateEnds(r, c.command, r', c'.place.outcome)
  {
    var reading := c.place.reading;
  }

  /** An update about to write ends by the present tag of its type, and is refused by it or stored. */
  lemma {:induction false} ContendedUpdateEnds(actions: seq<Action>, id: nat)
    requires id in Run(actions).clients && Run(actions).clients[id].command.Update? && Run(actions).clients[id].place.Writing?
    ensures var r, c := Run(actions).registry, Run(actions).clients[id]; var (r', c') := Alone(r, id, c, 3);
      c'.place.Finished? && c.command.documentType in r.types && WrittenUpdateEnds(r, c.command, r', c'.place.outcome)
  {
    RunKeeps(actions);
    assert ClientSound(Run(actions).registry, Run(actions).clients[id]);
    WritingUpdateEnds(Run(actions).registry, id, Run(actions).clients[id]);
  }

  /** What an update is told whose batch failed for no reason of its tag: by then it may have lost its authority. */
  lemma FailedUpdatesAreExplained(r: Registry, id: nat, c: Client, fate: Fate)
    requires c.command.Update? && c.place.ReadingLatest?
    ensures var (r', c') := Move(r, id, c, fate); r' == r && c'.place.Finished? && var o := c'.place.outcome;
      && (o == Failed(Forbidden) <==> c.command.actor !in r.active)
      && (c.command.actor in r.active ==> (o == Failed(NotFound) <==> c.command.documentType !in r.types))
      && (c.command.actor in r.active && c.command.documentType in r.types ==>
            o == Failed(if Etag(r.types[c.command.documentType].registration) == c.command.expected then BatchFailed else PreconditionFailed))
  {
  }
}
