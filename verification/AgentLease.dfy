/**
 * The run lease of an agent session: one row holds the conversation history and until when a run may
 * hold it. Acquiring takes it when it is free or lapsed; releasing writes the history and frees it.
 */
module AgentLeases {
  import opened Wrappers

  const AGENT_LEASE_SECONDS := 1800

  datatype Row<Json> = Row(history: Json, runningUntil: Option<int>)

  predicate Free<Json>(row: Option<Row<Json>>, now: int) {
    row.None? || row.value.runningUntil.None? || row.value.runningUntil.value < now
  }

  /** One statement inserts or takes over the row, and returns its history; nothing while someone holds it. */
  function TakeLease<Json>(row: Option<Row<Json>>, blank: Json, lease: int, now: int): (Option<Row<Json>>, Option<Json>) {
    if !Free(row, now) then (row, None)
    else
      var history := if row.None? then blank else row.value.history;
      (Some(Row(history, Some(now + lease))), Some(history))
  }

  /** Not fenced: it does not ask who holds the lease. */
  function FreeLease<Json>(row: Option<Row<Json>>, history: Json): Option<Row<Json>> {
    if row.None? then None else Some(Row(history, None))
  }

  class PgAgentSessionStore<Json> {
    var row: Option<Row<Json>>
    const blank: Json

    constructor (row: Option<Row<Json>>, blank: Json)
      ensures this.row == row && this.blank == blank
    {
      this.row, this.blank := row, blank;
    }

    method Acquire(lease: int, now: int) returns (history: Option<Json>)
      modifies this
      ensures (row, history) == TakeLease(old(row), blank, lease, now)
    {
      if row.None? {
        row := Some(Row(blank, Some(now + lease)));
        return Some(blank);
      }
      var held := row.value;
      if held.runningUntil.Some? && !(held.runningUntil.value < now) { return None; }
      row := Some(held.(runningUntil := Some(now + lease)));
      return Some(held.history);
    }

    method Release(history: Json)
      modifies this
      ensures row == FreeLease(old(row), history)
    {
      if row.Some? { row := Some(Row(history, None)); }
    }

    method Clear()
      modifies this
      ensures row == FreeLease(old(row), blank)
    {
      if row.Some? { row := Some(Row(blank, None)); }
    }
  }
}

/** The run request of the local operator: acquire, run the session, release in every case that can. */
module LocalOperators {
  import opened Wrappers
  import opened AgentLeases

  datatype RunEnd = Finished | NotOk | Threw

  /** What a session is made of: building the agent may fail, so may decoding the stored history or encoding the final one. */
  datatype Agent<!Json, !History> = Agent(
    builds: bool,
    decode: Json -> Option<History>,
    encode: History -> Option<Json>,
    run: (History, string) -> (History, RunEnd))

  datatype Response = Ok | BadRequest | AlreadyRunning | Failed

  /** The session a run works with, if the agent can be built and the history decoded. */
  function SessionOf<Json, History>(agent: Agent<Json, History>, raw: Json): Option<History> {
    if agent.builds then agent.decode(raw) else None
  }

  /** The lease is kept until it lapses exactly when the history cannot be encoded or the release itself throws. */
  method Run<Json, History>(store: PgAgentSessionStore<Json>, agent: Agent<Json, History>, instruction: Option<string>,
                            lease: int, now: int, releases: bool)
      returns (response: Response)
    modifies store
    ensures instruction.None? ==> response == BadRequest && store.row == old(store.row)
    ensures instruction.Some? && !Free(old(store.row), now) ==> response == AlreadyRunning && store.row == old(store.row)
    ensures instruction.Some? && Free(old(store.row), now) ==>
      var raw := if old(store.row).None? then store.blank else old(store.row).value.history;
      match SessionOf(agent, raw)
      case None => response == Failed && store.row == Some(if releases then Row(raw, None) else Row(raw, Some(now + lease)))
      case Some(session) =>
        var (history, end) := agent.run(session, instruction.value);
        var written := agent.encode(history).Some? && releases;
        && store.row == Some(if written then Row(agent.encode(history).value, None) else Row(raw, Some(now + lease)))
        && response == if written && end == Finished then Ok else Failed
  {
    if instruction.None? { return BadRequest; }
    var acquired := store.Acquire(lease, now);
    if acquired.None? { return AlreadyRunning; }
    var raw := acquired.value;
    var session: Option<History> := None;
    response := Failed;
    // try
    if agent.builds {
      session := agent.decode(raw);
      if session.Some? {
        var (history, end) := agent.run(session.value, instruction.value);
        session := Some(history);
        response := if end == Finished then Ok else Failed;
      }
    }
    // finally
    var final := if session.Some? then agent.encode(session.value) else Some(raw);
    if final.None? || !releases { return Failed; }
    store.Release(final.value);
  }
}

/** Runs on several replicas, with time passing between their statements. */
module LeaseRuns {
  import opened Wrappers
  import opened AgentLeases

  /** A run in progress: the history it started from, until when its lease lasts, and whether it was reset since. */
  datatype Active<Json> = Active(started: Json, until: int, reset: bool)

  datatype Event<Json> = Started(run: nat, from: Json) | Ended(run: nat, left: Json) | Crashed(run: nat) | Cleared

  datatype System<Json> = System(row: Option<Row<Json>>, now: int, active: map<nat, Active<Json>>, events: seq<Event<Json>>)

  datatype Action<Json> =
    | Begin(run: nat, lease: nat)
    | End(run: nat, left: Json)
    | Crash(run: nat)
    | Wait(seconds: nat)
    | Reset

  function Init<Json>(): System<Json> { System(None, 0, map[], []) }

  function Step<Json>(blank: Json, s: System<Json>, a: Action<Json>): System<Json> {
    match a
    case Begin(run, lease) =>
      if run in s.active then s
      else
        var (row, history) := TakeLease(s.row, blank, lease, s.now);
        if history.None? then s
        else System(row, s.now, s.active[run := Active(history.value, s.now + lease, false)], s.events + [Started(run, history.value)])
    case End(run, left) =>
      if run !in s.active then s
      else System(FreeLease(s.row, left), s.now, s.active - {run}, s.events + [Ended(run, left)])
    case Crash(run) =>  // its replica is gone, its lease stays
      if run !in s.active then s else s.(active := s.active - {run}, events := s.events + [Crashed(run)])
    case Wait(seconds) => s.(now := s.now + seconds)
    case Reset =>
      System(FreeLease(s.row, blank), s.now, map r | r in s.active :: s.active[r].(reset := true), s.events + [Cleared])
  }

  function Run<Json>(blank: Json, actions: seq<Action<Json>>): System<Json> {
    if actions == [] then Init() else Step(blank, Run(blank, actions[..|actions| - 1]), actions[|actions| - 1])
  }

  /** No run begins while one in progress has outlived its lease or was reset since it began. */
  ghost predicate Patient<Json>(s: System<Json>, a: Action<Json>) {
    a.Begin? && a.run !in s.active ==> forall r :: r in s.active ==> s.now <= s.active[r].until && !s.active[r].reset
  }

  ghost predicate AllPatient<Json>(blank: Json, actions: seq<Action<Json>>) {
    forall k :: 0 <= k < |actions| ==> Patient(Run(blank, actions[..k]), actions[k])
  }

  ghost predicate OneActive<Json>(s: System<Json>) {
    forall r, r' :: r in s.active && r' in s.active ==> r == r'
  }

  /** At most one run is in progress at any point. */
  ghost predicate Exclusive<Json>(blank: Json, actions: seq<Action<Json>>) {
    forall k :: 0 <= k <= |actions| ==> OneActive(Run(blank, actions[..k]))
  }

  /** The run that events so far leave in progress, if they take turns. */
  function Busy<Json>(events: seq<Event<Json>>): Option<nat> {
    if events == [] then None
    else match events[|events| - 1]
      case Started(run, _) => Some(run)
      case Ended(_, _) => None
      case Crashed(_) => None
      case Cleared => Busy(events[..|events| - 1])
  }

  /** What the last end or reset left; a crash leaves what there was. */
  function Kept<Json>(blank: Json, events: seq<Event<Json>>): Json {
    if events == [] then blank
    else match events[|events| - 1]
      case Started(_, _) => Kept(blank, events[..|events| - 1])
      case Crashed(_) => Kept(blank, events[..|events| - 1])
      case Ended(_, left) => left
      case Cleared => blank
  }

  /** Runs take turns, and each starts from exactly what the end or reset before it left, the first from nothing. */
  ghost predicate Chained<Json>(blank: Json, events: seq<Event<Json>>) {
    forall i :: 0 <= i < |events| ==> Linked(blank, events, i)
  }

  ghost predicate Linked<Json>(blank: Json, events: seq<Event<Json>>, i: nat)
    requires i < |events|
  {
    match events[i]
    case Started(_, from) => Busy(events[..i]) == None && from == Kept(blank, events[..i])
    case Ended(run, _) => Busy(events[..i]) == Some(run)
    case Crashed(run) => Busy(events[..i]) == Some(run)
    case Cleared => true
  }

  lemma {:induction false} OneMoreEvent<Json>(blank: Json, events: seq<Event<Json>>, e: Event<Json>)
    ensures Chained(blank, events + [e]) <==> Chained(blank, events) && Linked(blank, events + [e], |events|)
    ensures (events + [e])[..|events|] == events
  {
    var longer := events + [e];
    forall i | 0 <= i < |events| ensures Linked(blank, longer, i) <==> Linked(blank, events, i) {
      assert longer[..i] == events[..i];
    }
    if Chained(blank, longer) {
      forall i | 0 <= i < |events| ensures Linked(blank, events, i) {
        assert Linked(blank, longer, i);
      }
    }
  }

  /** The row holds what was kept last, and the lease of the one run in progress unless that was reset. */
  ghost predicate Inv<Json>(blank: Json, s: System<Json>) {
    && Chained(blank, s.events)
    && s.active.Keys == (if Busy(s.events).Some? then {Busy(s.events).value} else {})
    && Kept(blank, s.events) == (if s.row.Some? then s.row.value.history else blank)
    && (Busy(s.events).Some? ==>
          && s.row.Some?
          && var run := s.active[Busy(s.events).value];
             s.row.value.runningUntil == if run.reset then None else Some(run.until))
  }

  /** From a chain, a step keeps the chain exactly if it is patient, and else puts a second run beside the one in progress. */
  lemma {:induction false} StepKeeps<Json>(blank: Json, s: System<Json>, a: Action<Json>)
    requires Inv(blank, s)
    ensures var s' := Step(blank, s, a);
      && (Patient(s, a) ==> Inv(blank, s'))
      && (!Patient(s, a) ==> !Chained(blank, s'.events) && !OneActive(s'))
  {
    var s' := Step(blank, s, a);
    if s'.events != s.events {
      OneMoreEvent(blank, s.events, s'.events[|s.events|]);
    }
    if !Patient(s, a) {
      assert a.run in s'.active && Busy(s.events).value in s'.active;
    }
  }

  lemma {:induction false} Prefixes<Json>(blank: Json, actions: seq<Action<Json>>, k: nat)
    requires k <= |actions| && AllPatient(blank, actions)
    ensures AllPatient(blank, actions[..k])
  {
    forall j | 0 <= j < k ensures Patient(Run(blank, actions[..k][..j]), actions[..k][j]) {
      assert actions[..k][..j] == actions[..j];
    }
  }

  lemma {:induction false} RunKeeps<Json>(blank: Json, actions: seq<Action<Json>>)
    requires AllPatient(blank, actions)
    ensures Inv(blank, Run(blank, actions))
  {
    if actions != [] {
      var last := |actions| - 1;
      Prefixes(blank, actions, last);
      RunKeeps(blank, actions[..last]);
      StepKeeps(blank, Run(blank, actions[..last]), actions[last]);
    }
  }

  lemma {:induction false} EventsGrow<Json>(blank: Json, s: System<Json>, a: Action<Json>)
    ensures Chained(blank, Step(blank, s, a).events) ==> Chained(blank, s.events)
  {
    var events := Step(blank, s, a).events;
    if events != s.events {
      OneMoreEvent(blank, s.events, events[|s.events|]);
    }
  }

  lemma {:induction false} FirstImpatience<Json>(blank: Json, actions: seq<Action<Json>>)
    requires actions != [] && AllPatient(blank, actions[..|actions| - 1]) && !AllPatient(blank, actions)
    ensures !Patient(Run(blank, actions[..|actions| - 1]), actions[|actions| - 1])
  {
    var earlier := actions[..|actions| - 1];
    forall k | 0 <= k < |earlier| ensures Patient(Run(blank, actions[..k]), actions[k]) {
      assert earlier[..k] == actions[..k] && Patient(Run(blank, earlier[..k]), earlier[k]);
    }
  }

  /** A run that is not patient throughout has a first impatient step, and from there on no chain. */
  lemma {:induction false} ImpatienceShows<Json>(blank: Json, actions: seq<Action<Json>>)
    requires !AllPatient(blank, actions)
    ensures !Chained(blank, Run(blank, actions).events) && !Exclusive(blank, actions)
  {
    var last := |actions| - 1;
    var earlier := actions[..last];
    if AllPatient(blank, earlier) {
      FirstImpatience(blank, actions);
      RunKeeps(blank, earlier);
      StepKeeps(blank, Run(blank, earlier), actions[last]);
      assert actions[..|actions|] == actions;
    } else {
      ImpatienceShows(blank, earlier);
      EventsGrow(blank, Run(blank, earlier), actions[last]);
      var k :| 0 <= k <= last && !OneActive(Run(blank, earlier[..k]));
      assert earlier[..k] == actions[..k];
    }
  }

  /**
   * At most one run is ever in progress if and only if no run begins while one in progress has outlived its
   * lease or been reset; and under the same condition alone runs take turns, each starting from exactly what
   * the end or reset before it left. A run may outlive its lease as long as none begins before it ends, and
   * one that crashed may be followed by any.
   */
  lemma {:induction false} LeaseChain<Json>(blank: Json, actions: seq<Action<Json>>)
    ensures Exclusive(blank, actions) <==> AllPatient(blank, actions)
    ensures Chained(blank, Run(blank, actions).events) <==> AllPatient(blank, actions)
  {
    if AllPatient(blank, actions) {
      forall k | 0 <= k <= |actions| ensures OneActive(Run(blank, actions[..k])) {
        Prefixes(blank, actions, k);
        RunKeeps(blank, actions[..k]);
      }
      RunKeeps(blank, actions);
    } else {
      ImpatienceShows(blank, actions);
    }
  }

  /** Starts and ends alternate, each start from what the end right before it left, the first from nothing. */
  ghost predicate Alternate<Json>(blank: Json, events: seq<Event<Json>>) {
    forall i :: 0 <= i < |events| ==> Follows(blank, events, i)
  }

  ghost predicate Follows<Json>(blank: Json, events: seq<Event<Json>>, i: nat)
    requires i < |events|
  {
    match events[i]
    case Started(_, from) => if i == 0 then from == blank else events[i - 1].Ended? && from == events[i - 1].left
    case Ended(run, _) => i > 0 && events[i - 1].Started? && events[i - 1].run == run
    case _ => false
  }

  ghost predicate Uninterrupted<Json>(actions: seq<Action<Json>>) {
    forall k :: 0 <= k < |actions| ==> !actions[k].Reset? && !actions[k].Crash?
  }

  lemma {:induction false} OnlyStartsAndEnds<Json>(blank: Json, actions: seq<Action<Json>>)
    requires Uninterrupted(actions)
    ensures forall i :: 0 <= i < |Run(blank, actions).events| ==> Run(blank, actions).events[i].Started? || Run(blank, actions).events[i].Ended?
  {
    if actions != [] {
      OnlyStartsAndEnds(blank, actions[..|actions| - 1]);
      assert !actions[|actions| - 1].Reset? && !actions[|actions| - 1].Crash?;
    }
  }

  /** Where nobody resets or crashes, exactly such runs hand the history from each end to the next start. */
  lemma {:induction false} HistoryIsHandedOn<Json>(blank: Json, actions: seq<Action<Json>>)
    requires Uninterrupted(actions)
    ensures Alternate(blank, Run(blank, actions).events) <==> AllPatient(blank, actions)
  {
    var events := Run(blank, actions).events;
    OnlyStartsAndEnds(blank, actions);
    LeaseChain(blank, actions);
    forall i | 0 <= i < |events| ensures i > 0 && events[i - 1].Ended? ==> Kept(blank, events[..i]) == events[i - 1].left {
      assert i > 0 ==> events[..i][|events[..i]| - 1] == events[i - 1];
    }
    forall i | 0 <= i < |events| ensures Linked(blank, events, i) <==> Follows(blank, events, i) {
      assert i > 0 ==> events[..i][|events[..i]| - 1] == events[i - 1];
    }
    if Alternate(blank, events) {
      forall i | 0 <= i < |events| ensures Linked(blank, events, i) {
        assert Follows(blank, events, i);
      }
    }
    if Chained(blank, events) {
      forall i | 0 <= i < |events| ensures Follows(blank, events, i) {
        assert Linked(blank, events, i);
      }
    }
  }

  lemma {:induction false} Extended<Json>(blank: Json, actions: seq<Action<Json>>, a: Action<Json>)
    ensures Run(blank, actions + [a]) == Step(blank, Run(blank, actions), a)
  {
  }

  /** A run outlives its lease and another one takes over. */
  lemma LapsedLease<Json>(blank: Json, lease: nat, r1: nat, r2: nat) returns (actions: seq<Action<Json>>)
    requires r1 != r2
    ensures var s := Run(blank, actions);
      && s.row == Some(Row(blank, Some(s.now + lease))) && s.active.Keys == {r1, r2} && s.active[r2] == Active(blank, s.now + lease, false)
  {
    actions := [];
    Extended(blank, actions, Begin(r1, lease));
    actions := actions + [Begin(r1, lease)];
    assert Run(blank, actions) == System(Some(Row(blank, Some(lease))), 0, map[r1 := Active(blank, lease, false)], [Started(r1, blank)]);
    Extended(blank, actions, Wait(lease + 1));
    actions := actions + [Wait(lease + 1)];
    Extended(blank, actions, Begin(r2, lease));
    actions := actions + [Begin(r2, lease)];
  }

  /**
   * Release is not fenced: for any length of lease, a run that outlives it frees the lease of its successor,
   * so that a third run starts beside it, both within their leases.
   */
  lemma LateReleaseFreesSuccessor<Json>(blank: Json, left: Json, lease: nat, r1: nat, r2: nat, r3: nat) returns (actions: seq<Action<Json>>)
    requires r1 != r2 && r2 != r3 && r3 != r1
    ensures var s := Run(blank, actions);
      r2 in s.active && r3 in s.active && s.now <= s.active[r2].until && s.now <= s.active[r3].until
  {
    actions := LapsedLease(blank, lease, r1, r2);
    Extended(blank, actions, End(r1, left));
    actions := actions + [End(r1, left)];
    Extended(blank, actions, Begin(r3, lease));
    actions := actions + [Begin(r3, lease)];
  }
}
