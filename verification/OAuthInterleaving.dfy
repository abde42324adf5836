/**
 * Runs of the two refresh-token stores, with a log of what their calls did to the tables.
 *
 * Nothing is assumed about family ids or token hashes being fresh: the theorems speak of each issue of a
 * hash and each opening of a family.
 */
module RotationLogs {
  import opened Wrappers
  import opened OAuthFamilies

  datatype Event =
    | Opened(family: string)
    | Closed(family: string)
    | Issued(hash: string)
    | RotatedFrom(hash: string, family: string, call: nat)

  function If(c: bool, e: Event): seq<Event> {
    if c then [e] else []
  }

  predicate Unknown(s: Store, family: string) {
    family !in s.families
  }

  /** The family was closed and not opened again since. */
  predicate StaysClosed(log: seq<Event>, family: string) {
    if log == [] then false
    else
      var last := log[|log| - 1];
      if last == Closed(family) then true
      else if last == Opened(family) then false
      else StaysClosed(log[..|log| - 1], family)
  }

  /** The hash was issued and not rotated since. */
  predicate Outstanding(log: seq<Event>, hash: string) {
    if log == [] then false
    else
      var last := log[|log| - 1];
      if last == Issued(hash) then true
      else if last.RotatedFrom? && last.hash == hash then false
      else Outstanding(log[..|log| - 1], hash)
  }

  /** Every rotation was of an outstanding hash, in a family that did not stay closed. */
  predicate Obedient(log: seq<Event>) {
    log == [] ||
    (Obedient(log[..|log| - 1])
     && var earlier, last := log[..|log| - 1], log[|log| - 1];
        last.RotatedFrom? ==> !StaysClosed(earlier, last.family) && Outstanding(earlier, last.hash))
  }

  predicate Live(s: Store, hash: string) {
    hash in s.tokens && s.tokens[hash].consumedAt.None?
  }

  /** The log accounts for the tables: what is live is outstanding, what stays closed is revoked. */
  ghost predicate Logged(s: Store, log: seq<Event>) {
    && FamilyInv(s) && Obedient(log)
    && (forall hash :: Live(s, hash) ==> Outstanding(log, hash))
    && (forall family :: StaysClosed(log, family) && family in s.families ==> Revoked(s, family))
  }

  // ---------------------------------------------------------------- what each change of the tables logs

  lemma {:induction false} RotationLogged(s: Store, s': Store, log: seq<Event>, current: string, next: string, now: int, call: nat)
    requires Logged(s, log) && RotatedTo(s, s', current, next, now)
    ensures Logged(s', log + [RotatedFrom(current, s.tokens[current].family, call), Issued(next)])
  {
    RotationKeepsFamilies(s, s', current, next, now);
    var rotated := RotatedFrom(current, s.tokens[current].family, call);
    assert log + [rotated, Issued(next)] == log + [rotated] + [Issued(next)];
    assert Live(s, current) && !StaysClosed(log, rotated.family);
    forall hash | Live(s', hash) ensures Outstanding(log + [rotated] + [Issued(next)], hash) {
      assert hash != next ==> Live(s, hash);
    }
  }

  lemma {:induction false} ReplayLogged(s: Store, log: seq<Event>, family: string, now: int)
    requires Logged(s, log)
    ensures Logged(RevokeReplayed(s, family, now), log + If(family in s.families, Closed(family)))
  {
    ReplayKeepsFamilies(s, family, now);
    var s' := RevokeReplayed(s, family, now);
    assert log + [] == log;
    forall hash | Live(s', hash) ensures Live(s, hash) {}
  }

  lemma {:induction false} RevokeLogged(s: Store, log: seq<Event>, hash: string, clientId: string, now: int)
    requires Logged(s, log)
    ensures Logged(RevokeByToken(s, hash, clientId, now),
                   log + if OwnFamily(s, hash, clientId) then [Closed(s.tokens[hash].family)] else [])
  {
    RevokeKeepsFamilies(s, hash, clientId, now);
    var s' := RevokeByToken(s, hash, clientId, now);
    assert log + [] == log;
    if OwnFamily(s, hash, clientId) {
      forall h | Live(s', h) ensures Live(s, h) {}
    }
  }

  lemma {:induction false} CleanupLogged(s: Store, log: seq<Event>, now: int)
    requires Logged(s, log)
    ensures Logged(Cleanup(s, now), log)
  {
    CleanupKeepsFamilies(s, now);
    forall h | Live(Cleanup(s, now), h) ensures Live(s, h) {}
  }

  /** A family row inserted for a family that had none. */
  lemma {:induction false} OpeningLogged(s: Store, s': Store, log: seq<Event>, id: string)
    requires Logged(s, log) && id !in s.families && id in s'.families && s'.families[id].revokedAt.None?
    requires s' == s.(families := s.families[id := s'.families[id]])
    ensures Logged(s', log + [Opened(id)])
  {
    FamilyRowKeepsFamilies(s, s');
    forall h | Live(s', h) ensures Live(s, h) {}
  }

  lemma {:induction false} IssueLogged(s: Store, s': Store, log: seq<Event>, hash: string)
    requires Logged(s, log) && FamilyInv(s') && s'.families == s.families && hash in s'.tokens
    requires s' == s.(tokens := s.tokens[hash := s'.tokens[hash]])
    ensures Logged(s', log + [Issued(hash)])
  {
  }

  /**
   * What one step adds to the log tells what it did to the tables: a hash is issued when its row appears, a
   * family opened when its row appears and closed when it is revoked, and a hash is rotated when its live row
   * gets a successor.
   */
  ghost predicate Tells(s: Store, s': Store, more: seq<Event>) {
    && (forall h :: Issued(h) in more <==> h !in s.tokens && h in s'.tokens)
    && (forall f :: Opened(f) in more <==> f !in s.families && f in s'.families)
    && (forall f :: Closed(f) in more ==> f in s.families && Revoked(s', f))
    && (forall f :: f in s.families && !Revoked(s, f) && Revoked(s', f) ==> Closed(f) in more)
    && (forall e :: e in more && e.RotatedFrom? ==> Live(s, e.hash) && s.tokens[e.hash].family == e.family && Succeeded(s', e.hash))
    && (forall h :: Live(s, h) && Succeeded(s', h) ==> exists e :: e in more && e.RotatedFrom? && e.hash == h)
  }

  predicate Succeeded(s: Store, hash: string) {
    hash in s.tokens && s.tokens[hash].successor.Some?
  }

  lemma {:induction false} RotationTold(s: Store, s': Store, current: string, next: string, now: int, call: nat)
    requires FamilyInv(s) && RotatedTo(s, s', current, next, now)
    ensures Tells(s, s', [RotatedFrom(current, s.tokens[current].family, call), Issued(next)])
  {
    var e := RotatedFrom(current, s.tokens[current].family, call);
    assert [e, Issued(next)][0] == e && [e, Issued(next)][1] == Issued(next);
    forall h | Live(s, h) && Succeeded(s', h) ensures h == current {
      assert SoundToken(s, h);
    }
  }

  lemma {:induction false} FirstTokenTold(s: Store, s': Store, t: StoredToken, inserted: bool)
    requires FamilyInv(s) && OpensFor(s, s', t)
    requires if inserted then Stores(s, s', t) else s'.tokens == s.tokens
    ensures Tells(s, s', If(Unknown(s, t.familyId), Opened(t.familyId)) + If(inserted, Issued(t.tokenHash)))
  {
    NoSuccessor(s, s');
    var more := If(Unknown(s, t.familyId), Opened(t.familyId)) + If(inserted, Issued(t.tokenHash));
    assert forall e :: e in more <==> (e == Opened(t.familyId) && t.familyId !in s.families) || (e == Issued(t.tokenHash) && inserted);
    assert forall f :: f in s.families ==> Revoked(s', f) == Revoked(s, f);
  }

  /** Where no successor is set, no live row gets one. */
  lemma {:induction false} NoSuccessor(s: Store, s': Store)
    requires FamilyInv(s)
    requires forall h :: h in s.tokens && h in s'.tokens ==> s'.tokens[h].successor == s.tokens[h].successor
    ensures forall h :: Live(s, h) ==> !Succeeded(s', h)
  {
    forall h | Live(s, h) ensures !Succeeded(s', h) {
      assert SoundToken(s, h);
    }
  }

  lemma {:induction false} ClosingTold(s: Store, s': Store, family: string, closed: bool)
    requires FamilyInv(s) && s'.tokens.Keys == s.tokens.Keys && s'.families.Keys == s.families.Keys
    requires forall h :: h in s.tokens ==> s'.tokens[h].successor == s.tokens[h].successor
    requires forall f :: f in s.families && f != family ==> s'.families[f] == s.families[f]
    requires if closed then family in s.families && Revoked(s', family) else s'.families == s.families
    ensures Tells(s, s', If(closed, Closed(family)))
  {
    forall h | Live(s, h) ensures !Succeeded(s', h) {
      assert SoundToken(s, h);
    }
  }

  lemma ClosingOfFamily(s: Store, family: string, now: int)
    requires FamilyInv(s)
    ensures Tells(s, RevokeReplayed(s, family, now), If(family in s.families, Closed(family)))
  {
    var closed := family in s.families;
    ClosingTold(s, RevokeReplayed(s, family, now), family, closed);
  }

  lemma {:induction false} CleanupTold(s: Store, now: int)
    requires FamilyInv(s)
    ensures Tells(s, Cleanup(s, now), [])
  {
    forall h | Live(s, h) ensures !Succeeded(Cleanup(s, now), h) {
      assert SoundToken(s, h);
    }
  }

  lemma {:induction false} NothingTold(s: Store)
    requires FamilyInv(s)
    ensures Tells(s, s, [])
  {
    forall h | Live(s, h) ensures !Succeeded(s, h) {
      assert SoundToken(s, h);
    }
  }

  // ---------------------------------------------------------------- what an obedient log says

  lemma {:induction false} ObedientAt(log: seq<Event>, j: int)
    requires Obedient(log) && 0 <= j < |log| && log[j].RotatedFrom?
    ensures !StaysClosed(log[..j], log[j].family) && Outstanding(log[..j], log[j].hash)
  {
    if j < |log| - 1 {
      ObedientAt(log[..|log| - 1], j);
      assert log[..|log| - 1][..j] == log[..j];
    }
  }

  lemma {:induction false} ReopenedSince(log: seq<Event>, i: int, family: string)
    requires 0 <= i < |log| && log[i] == Closed(family) && !StaysClosed(log, family)
    ensures exists k :: i < k < |log| && log[k] == Opened(family)
  {
    var last := |log| - 1;
    if log[last] != Opened(family) {
      ReopenedSince(log[..last], i, family);
    }
  }

  /** An outstanding hash was issued, and after any rotation of it. */
  lemma {:induction false} IssuedSince(log: seq<Event>, hash: string) returns (k: nat)
    requires Outstanding(log, hash)
    ensures k < |log| && log[k] == Issued(hash)
    ensures forall i :: k < i < |log| ==> !(log[i].RotatedFrom? && log[i].hash == hash)
  {
    var last := |log| - 1;
    if log[last] == Issued(hash) {
      k := last;
    } else {
      k := IssuedSince(log[..last], hash);
    }
  }

  /** Between two rotations of a hash lies an issue of it, and before the first one too. */
  lemma {:induction false} IssueBetweenRotations(log: seq<Event>, i: int, j: int)
    requires Obedient(log) && -1 <= i < j < |log| && log[j].RotatedFrom?
    requires i >= 0 ==> log[i].RotatedFrom? && log[i].hash == log[j].hash
    ensures exists k :: i < k < j && log[k] == Issued(log[j].hash)
  {
    ObedientAt(log, j);
    var k := IssuedSince(log[..j], log[j].hash);
    assert log[k] == Issued(log[j].hash) && (i >= 0 ==> log[..j][i] == log[i]);
  }

  lemma {:induction false} ReopenedBetween(log: seq<Event>, i: int, j: int)
    requires Obedient(log) && 0 <= i < j < |log| && log[i].Closed? && log[j].RotatedFrom? && log[j].family == log[i].family
    ensures exists k :: i < k < j && log[k] == Opened(log[i].family)
  {
    ObedientAt(log, j);
    ReopenedSince(log[..j], i, log[i].family);
    var k :| i < k < j && log[..j][k] == Opened(log[i].family);
  }
}

/** D1 rotations as three separate calls, mixed with each other, with first tokens, revocations and cleanup. */
module OAuthInterleaving {
  import opened Wrappers
  import opened OAuthFamilies
  import opened RotationLogs

  datatype Call =
    | Rotating(current: string, next: string, now: int)
    | ReadingSuccessor(current: string, next: string)
    | ReadingCurrent(current: string, now: int)
    | RevokingFamily(family: string, now: int)
    | Finished(current: string, result: Outcome<Rotation>)

  datatype System = System(store: Store, calls: map<nat, Call>, log: seq<Event>)

  const Init: System := System(Store(map[], map[]), map[], [])

  datatype Action =
    | Start(id: nat, current: string, next: string, now: int)
    | Await(id: nat)
    | PutInitial(token: StoredToken)
    | Revoke(hash: string, clientId: string, now: int)
    | Clean(now: int)

  function AwaitCall(s: System, id: nat): System
    requires id in s.calls
  {
    match s.calls[id]
    case Rotating(current, next, now) =>
      var (store, inserted) := D1RotateBatch(s.store, current, next, now);
      if inserted.Threw? then System(store, s.calls[id := Finished(current, Threw)], s.log)
      else if inserted.value then
        System(store, s.calls[id := ReadingSuccessor(current, next)],
               s.log + if current in s.store.tokens then [RotatedFrom(current, s.store.tokens[current].family, id), Issued(next)]
                       else [Issued(next)])
      else System(store, s.calls[id := ReadingCurrent(current, now)], s.log)
    case ReadingSuccessor(current, next) =>
      var row := Find(s.store, next);
      s.(calls := s.calls[id := Finished(current, if row.None? then Threw else Answered(Rotated(FromRow(next, row.value.0))))])
    case ReadingCurrent(current, now) =>
      var replayed := ReplayedFamily(s.store, current);
      s.(calls := s.calls[id := if replayed.None? then Finished(current, Answered(Invalid)) else RevokingFamily(replayed.value, now)])
    case RevokingFamily(family, now) =>
      System(RevokeReplayed(s.store, family, now), s.calls[id := Finished("", Answered(Replayed))],
             s.log + If(family in s.store.families, Closed(family)))
    case Finished(_, _) => s
  }

  function Step(s: System, a: Action): System {
    match a
    case Start(id, current, next, now) =>
      if id in s.calls then s else s.(calls := s.calls[id := Rotating(current, next, now)])
    case Await(id) => if id in s.calls then AwaitCall(s, id) else s
    case PutInitial(t) =>
      if t.generation != 0 then s  // every caller stores generation 0
      else
        var (store, inserted) := D1PutInitial(s.store, t);
        System(store, s.calls, s.log + If(Unknown(s.store, t.familyId), Opened(t.familyId)) + If(inserted, Issued(t.tokenHash)))
    case Revoke(hash, clientId, now) =>
      System(RevokeByToken(s.store, hash, clientId, now), s.calls,
             s.log + if OwnFamily(s.store, hash, clientId) then [Closed(s.store.tokens[hash].family)] else [])
    case Clean(now) => s.(store := Cleanup(s.store, now))
  }

  function Run(s: System, actions: seq<Action>): System {
    if actions == [] then s
    else Step(Run(s, actions[..|actions| - 1]), actions[|actions| - 1])
  }

  // ---------------------------------------------------------------- what every reachable state satisfies

  predicate RotatedBy(log: seq<Event>, k: int, id: nat, current: string) {
    0 <= k < |log| && log[k].RotatedFrom? && log[k].call == id && log[k].hash == current
  }

  predicate Won(c: Call) {
    c.ReadingSuccessor? || (c.Finished? && c.result.Answered? && c.result.value.Rotated?)
  }

  /** A call that inserted a successor left its own rotation in the log, and only such a call did. */
  ghost predicate WinnersLogged(s: System) {
    && (forall id :: id in s.calls && Won(s.calls[id]) ==> exists k :: RotatedBy(s.log, k, id, s.calls[id].current))
    && (forall k :: 0 <= k < |s.log| && s.log[k].RotatedFrom? ==> Left(s, s.log[k].call))
    && (forall k, k' :: 0 <= k < k' < |s.log| && s.log[k].RotatedFrom? && s.log[k'].RotatedFrom? ==> s.log[k].call != s.log[k'].call)
  }

  /** The call has done its batch. */
  predicate Left(s: System, id: nat) {
    id in s.calls && !s.calls[id].Rotating?
  }

  ghost predicate Inv(s: System) {
    Logged(s.store, s.log) && WinnersLogged(s)
  }

  lemma {:induction false} QuietLogKeepsWinners(s: System, s': System, more: seq<Event>)
    requires WinnersLogged(s) && s'.log == s.log + more && forall k :: 0 <= k < |more| ==> !more[k].RotatedFrom?
    requires forall id :: id in s.calls ==> id in s'.calls && (Left(s, id) ==> Left(s', id))
    requires forall id :: id in s'.calls && Won(s'.calls[id]) ==> id in s.calls && Won(s.calls[id]) && s'.calls[id].current == s.calls[id].current
    ensures WinnersLogged(s')
  {
    forall id | id in s'.calls && Won(s'.calls[id]) ensures exists k :: RotatedBy(s'.log, k, id, s'.calls[id].current) {
      var k :| RotatedBy(s.log, k, id, s.calls[id].current);
      assert RotatedBy(s'.log, k, id, s.calls[id].current);
    }
    forall k | |s.log| <= k < |s'.log| ensures !s'.log[k].RotatedFrom? {
      assert s'.log[k] == more[k - |s.log|];
    }
    forall k | 0 <= k < |s'.log| && s'.log[k].RotatedFrom? ensures k < |s.log| && s'.log[k] == s.log[k] {}
  }

  lemma {:induction false} WinnerJoins(s: System, s': System, id: nat, rotated: Event, issued: Event)
    requires WinnersLogged(s) && id in s.calls && s.calls[id].Rotating?
    requires rotated.RotatedFrom? && rotated.call == id && rotated.hash == s.calls[id].current && !issued.RotatedFrom?
    requires s'.log == s.log + [rotated, issued]
    requires s'.calls == s.calls[id := ReadingSuccessor(s.calls[id].current, s.calls[id].next)]
    ensures WinnersLogged(s')
  {
    var n := |s.log|;
    assert s'.log[n] == rotated && s'.log[n + 1] == issued;
    forall other | other in s'.calls && Won(s'.calls[other]) ensures exists k :: RotatedBy(s'.log, k, other, s'.calls[other].current) {
      if other == id {
        assert RotatedBy(s'.log, n, id, s.calls[id].current);
      } else {
        var k :| RotatedBy(s.log, k, other, s.calls[other].current);
        assert RotatedBy(s'.log, k, other, s.calls[other].current);
      }
    }
    forall k | 0 <= k < |s'.log| && s'.log[k].RotatedFrom?
      ensures Left(s', s'.log[k].call) && (k != n ==> k < n && s'.log[k] == s.log[k] && s.log[k].call != id)
    {
      assert k < n ==> Left(s, s.log[k].call);
    }
  }

  lemma RotationStep(s: System, id: nat)
    requires Inv(s) && id in s.calls && s.calls[id].Rotating?
    ensures Inv(AwaitCall(s, id))
  {
    var Rotating(current, next, now) := s.calls[id];
    InsertMeansOwnUpdate(s.store, current, next, now);
    var (store, inserted) := D1RotateBatch(s.store, current, next, now);
    var s' := AwaitCall(s, id);
    if inserted == Answered(true) {
      RotationLogged(s.store, store, s.log, current, next, now, id);
      WinnerJoins(s, s', id, RotatedFrom(current, s.store.tokens[current].family, id), Issued(next));
    } else {
      QuietLogKeepsWinners(s, s', []);
    }
  }

  lemma OtherCallStep(s: System, id: nat)
    requires Inv(s) && id in s.calls && !s.calls[id].Rotating?
    ensures Inv(AwaitCall(s, id))
  {
    var s' := AwaitCall(s, id);
    if s.calls[id].RevokingFamily? {
      var family := s.calls[id].family;
      ReplayLogged(s.store, s.log, family, s.calls[id].now);
      var more := If(family in s.store.families, Closed(family));
      QuietLogKeepsWinners(s, s', more);
    } else {
      QuietLogKeepsWinners(s, s', []);
    }
  }

  lemma {:induction false} FirstTokenLogged(s: Store, log: seq<Event>, t: StoredToken)
    requires Logged(s, log) && t.generation == 0
    ensures Logged(D1PutInitial(s, t).0, log + If(Unknown(s, t.familyId), Opened(t.familyId)) + If(D1PutInitial(s, t).1, Issued(t.tokenHash)))
  {
    var begun, begunLog := s, log + If(Unknown(s, t.familyId), Opened(t.familyId));
    assert log + [] == log;
    if t.familyId !in s.families {
      begun := s.(families := s.families[t.familyId := Family(t.owner, t.createdAt, None, None)]);
      OpeningLogged(s, begun, log, t.familyId);
    }
    assert D1PutInitial(begun, t) == D1PutInitial(s, t);
    assert begunLog + [] == begunLog;
    if D1PutInitial(s, t).1 {
      D1PutInitialKeepsFamilies(begun, t);
      IssueLogged(begun, D1PutInitial(begun, t).0, begunLog, t.tokenHash);
    }
  }

  lemma FirstTokenStep(s: System, t: StoredToken)
    requires Inv(s)
    ensures Inv(Step(s, PutInitial(t)))
  {
    if t.generation == 0 {
      FirstTokenLogged(s.store, s.log, t);
      var first, second := If(Unknown(s.store, t.familyId), Opened(t.familyId)), If(D1PutInitial(s.store, t).1, Issued(t.tokenHash));
      assert s.log + first + second == s.log + (first + second);
      var more := first + second;
      QuietLogKeepsWinners(s, Step(s, PutInitial(t)), more);
    }
  }

  lemma RevokeStep(s: System, hash: string, clientId: string, now: int)
    requires Inv(s)
    ensures Inv(Step(s, Revoke(hash, clientId, now)))
  {
    RevokeLogged(s.store, s.log, hash, clientId, now);
    var more := if OwnFamily(s.store, hash, clientId) then [Closed(s.store.tokens[hash].family)] else [];
    QuietLogKeepsWinners(s, Step(s, Revoke(hash, clientId, now)), more);
  }

  lemma StartStep(s: System, id: nat, current: string, next: string, now: int)
    requires Inv(s)
    ensures Inv(Step(s, Start(id, current, next, now)))
  {
  }

  lemma CleanStep(s: System, now: int)
    requires Inv(s)
    ensures Inv(Step(s, Clean(now)))
  {
    CleanupLogged(s.store, s.log, now);
    QuietLogKeepsWinners(s, Step(s, Clean(now)), []);
  }

  lemma StepKeeps(s: System, a: Action)
    requires Inv(s)
    ensures Inv(Step(s, a))
  {
    match a
    case Start(id, current, next, now) => StartStep(s, id, current, next, now);
    case Await(id) =>
      if id in s.calls {
        if s.calls[id].Rotating? { RotationStep(s, id); } else { OtherCallStep(s, id); }
      }
    case PutInitial(t) => FirstTokenStep(s, t);
    case Revoke(hash, clientId, now) => RevokeStep(s, hash, clientId, now);
    case Clean(now) => CleanStep(s, now);
  }

  lemma {:induction false} RunKeeps(actions: seq<Action>)
    ensures Inv(Run(Init, actions))
  {
    if actions != [] {
      RunKeeps(actions[..|actions| - 1]);
      StepKeeps(Run(Init, actions[..|actions| - 1]), actions[|actions| - 1]);
    }
  }

  // ---------------------------------------------------------------- what holds after any run

  /** Families stay chains whatever the calls interleave with; the last token of one that is not revoked is its one unconsumed token. */
  lemma {:induction false} FamiliesStayChains(actions: seq<Action>, family: string, member: string)
    requires InFamily(Run(Init, actions).store, member, family)
    ensures var s := Run(Init, actions).store;
      exists chain :: IsChain(s, family, chain) && (!Revoked(s, family) ==> OnlyUnconsumed(s, family, chain[|chain| - 1]))
  {
    RunKeeps(actions);
    FamilyIsAChain(Run(Init, actions).store, family, member);
  }

  /** Before every rotation of a hash, and after the rotation of it before that, the hash was issued. */
  lemma {:induction false} EachIssueRotatesOnce(actions: seq<Action>, i: int, j: int)
    requires var log := Run(Init, actions).log;
      && -1 <= i < j < |log| && log[j].RotatedFrom?
      && (i >= 0 ==> log[i].RotatedFrom? && log[i].hash == log[j].hash)
    ensures var log := Run(Init, actions).log; exists k :: i < k < j && log[k] == Issued(log[j].hash)
  {
    RunKeeps(actions);
    IssueBetweenRotations(Run(Init, actions).log, i, j);
  }

  lemma {:induction false} FirstTokenTells(s: System, t: StoredToken)
    requires FamilyInv(s.store)
    ensures var s' := Step(s, PutInitial(t)); s.log <= s'.log && Tells(s.store, s'.store, s'.log[|s.log|..])
  {
    var s' := Step(s, PutInitial(t));
    NothingTold(s.store);
    if t.generation == 0 {
      D1FirstTokenMeans(s.store, t);
      var inserted := D1PutInitial(s.store, t).1;
      FirstTokenTold(s.store, s'.store, t, inserted);
      assert s'.log == s.log + (If(Unknown(s.store, t.familyId), Opened(t.familyId)) + If(inserted, Issued(t.tokenHash)));
    }
  }

  lemma {:induction false} RevocationTells(s: System, hash: string, clientId: string, now: int)
    requires FamilyInv(s.store)
    ensures var s' := Step(s, Revoke(hash, clientId, now)); s.log <= s'.log && Tells(s.store, s'.store, s'.log[|s.log|..])
  {
    var s' := Step(s, Revoke(hash, clientId, now));
    NothingTold(s.store);
    if OwnFamily(s.store, hash, clientId) {
      ClosingTold(s.store, s'.store, s.store.tokens[hash].family, true);
      assert s'.log[|s.log|..] == If(true, Closed(s.store.tokens[hash].family));
    }
  }

  /** The log is exactly what the steps of the run did to the tables. */
  lemma {:induction false} LogTellsChanges(actions: seq<Action>, a: Action)
    ensures var s := Run(Init, actions); var s' := Step(s, a);
      s.log <= s'.log && Tells(s.store, s'.store, s'.log[|s.log|..])
  {
    RunKeeps(actions);
    var s := Run(Init, actions);
    match a
    case Start(_, _, _, _) => NothingTold(s.store);
    case Await(id) => if id in s.calls { CallTells(s, id); } else { NothingTold(s.store); }
    case PutInitial(t) => FirstTokenTells(s, t);
    case Revoke(hash, clientId, now) => RevocationTells(s, hash, clientId, now);
    case Clean(now) => CleanupTold(s.store, now);
  }

  lemma {:induction false} CallTells(s: System, id: nat)
    requires Inv(s) && id in s.calls
    ensures var s' := AwaitCall(s, id); s.log <= s'.log && Tells(s.store, s'.store, s'.log[|s.log|..])
  {
    var s', c := AwaitCall(s, id), s.calls[id];
    NothingTold(s.store);
    if c.Rotating? {
      InsertMeansOwnUpdate(s.store, c.current, c.next, c.now);
      if Rotatable(s.store, c.current, c.next, c.now) {
        RotationTold(s.store, s'.store, c.current, c.next, c.now, id);
        assert s'.log[|s.log|..] == [RotatedFrom(c.current, s.store.tokens[c.current].family, id), Issued(c.next)];
      }
    } else if c.RevokingFamily? {
      ClosingOfFamily(s.store, c.family, c.now);
      assert s'.log[|s.log|..] == If(c.family in s.store.families, Closed(c.family));
    }
  }

  /** The steps are the store's own operations, and a call starts with what it was asked. */
  lemma StepsAreOperations(s: System, id: nat, current: string, next: string, now: int, t: StoredToken, hash: string, clientId: string)
    ensures var s' := Step(s, Start(id, current, next, now));
      && s'.store == s.store && s'.log == s.log
      && (id in s.calls ==> s'.calls == s.calls)
      && (id !in s.calls ==>
            && s'.calls.Keys == s.calls.Keys + {id} && (forall other :: other in s.calls ==> s'.calls[other] == s.calls[other])
            && s'.calls[id].Rotating? && s'.calls[id].current == current && s'.calls[id].next == next && s'.calls[id].now == now)
    ensures t.generation == 0 ==> Step(s, PutInitial(t)).store == D1PutInitial(s.store, t).0 && Step(s, PutInitial(t)).calls == s.calls
    ensures Step(s, Revoke(hash, clientId, now)).store == RevokeByToken(s.store, hash, clientId, now)
    ensures Step(s, Revoke(hash, clientId, now)).calls == s.calls
    ensures Step(s, Clean(now)).store == Cleanup(s.store, now) && Step(s, Clean(now)).calls == s.calls
  {
  }

  /** A call that nobody disturbs does what its three statements do in one: the machine and the store agree. */
  lemma AloneCallRotates(s: System, id: nat, current: string, next: string, now: int)
    requires id in s.calls && s.calls[id] == Rotating(current, next, now)
    ensures var s1 := AwaitCall(s, id); var s2 := AwaitCall(s1, id); var s3 := AwaitCall(s2, id);
      && s3.calls[id].Finished? && (s3.store, s3.calls[id].result) == D1Rotate(s.store, current, next, now)
      && s3.calls.Keys == s.calls.Keys && forall other :: other in s.calls && other != id ==> s3.calls[other] == s.calls[other]
  {
  }

  /** A call that answers `rotated` made exactly one rotation, of its own token. */
  lemma {:induction false} WinnersRotatedOnce(actions: seq<Action>, id: nat)
    requires id in Run(Init, actions).calls && Won(Run(Init, actions).calls[id])
    ensures var s := Run(Init, actions);
      && (exists k :: RotatedBy(s.log, k, id, s.calls[id].current))
      && (forall k, k', h, h' :: RotatedBy(s.log, k, id, h) && RotatedBy(s.log, k', id, h') ==> k == k')
  {
    RunKeeps(actions);
  }

  /**
   * Once a family was closed, by a detected replay or by `revoke`, a token of it rotates again only after
   * the family was cleaned away and opened anew.
   */
  lemma {:induction false} ClosedFamiliesDoNotRotate(actions: seq<Action>, i: int, j: int)
    requires var log := Run(Init, actions).log;
             0 <= i < j < |log| && log[i].Closed? && log[j].RotatedFrom? && log[j].family == log[i].family
    ensures var log := Run(Init, actions).log;
            exists k :: i < k < j && log[k] == Opened(log[i].family)
  {
    RunKeeps(actions);
    ReopenedBetween(Run(Init, actions).log, i, j);
  }

  /** In every reachable state a batch inserts exactly when its own update consumed the token. */
  lemma {:induction false} InsertsAreOwnUpdates(actions: seq<Action>, current: string, next: string, now: int)
    ensures var s := Run(Init, actions).store;
            var (s', inserted) := D1RotateBatch(s, current, next, now);
            && (inserted == Answered(true) <==> Rotatable(s, current, next, now))
            && (inserted == Answered(true) ==> RotatedTo(s, s', current, next, now))
            && (inserted != Answered(true) ==> s' == s)
  {
    RunKeeps(actions);
    InsertMeansOwnUpdate(Run(Init, actions).store, current, next, now);
  }
}

/** The Postgres store over whole runs of its transactions. */
module PgOAuthRuns {
  import opened Wrappers
  import opened OAuthFamilies
  import opened RotationLogs

  datatype System = System(store: Store, log: seq<Event>)

  const Init: System := System(Store(map[], map[]), [])

  datatype Action =
    | PutInitial(token: StoredToken)
    | Rotate(call: nat, current: string, next: string, now: int)
    | Revoke(hash: string, clientId: string, now: int)
    | Clean(now: int)

  function Step(s: System, a: Action): System {
    match a
    case PutInitial(t) =>
      if t.generation != 0 then s  // every caller stores generation 0
      else
        var (store, r) := PgPutInitial(s.store, t);
        System(store, s.log + if r == Answered(true) then [Opened(t.familyId), Issued(t.tokenHash)] else [])
    case Rotate(call, current, next, now) =>
      var (store, r) := PgRotate(s.store, current, next, now);
      System(store,
             s.log + if r.Threw? || r.value.Invalid? || current !in s.store.tokens then []
                     else if r.value.Replayed? then [Closed(s.store.tokens[current].family)]
                     else [RotatedFrom(current, s.store.tokens[current].family, call), Issued(next)])
    case Revoke(hash, clientId, now) =>
      System(RevokeByToken(s.store, hash, clientId, now),
             s.log + if OwnFamily(s.store, hash, clientId) then [Closed(s.store.tokens[hash].family)] else [])
    case Clean(now) => s.(store := Cleanup(s.store, now))
  }

  function Run(actions: seq<Action>): System {
    if actions == [] then Init else Step(Run(actions[..|actions| - 1]), actions[|actions| - 1])
  }

  lemma FirstTokenStep(s: System, t: StoredToken)
    requires Logged(s.store, s.log)
    ensures var s' := Step(s, PutInitial(t)); Logged(s'.store, s'.log)
  {
    var s' := Step(s, PutInitial(t));
    assert s.log + [] == s.log;
    if s'.store != s.store {
      var begun := s.store.(families := s.store.families[t.familyId := Family(t.owner, t.createdAt, None, None)]);
      OpeningLogged(s.store, begun, s.log, t.familyId);
      PgPutInitialKeepsFamilies(s.store, t);
      IssueLogged(begun, s'.store, s.log + [Opened(t.familyId)], t.tokenHash);
      assert s.log + [Opened(t.familyId), Issued(t.tokenHash)] == s.log + [Opened(t.familyId)] + [Issued(t.tokenHash)];
    }
  }

  lemma RotateStep(s: System, call: nat, current: string, next: string, now: int)
    requires Logged(s.store, s.log)
    ensures var s' := Step(s, Rotate(call, current, next, now)); Logged(s'.store, s'.log)
  {
    var (store, r) := PgRotate(s.store, current, next, now);
    assert s.log + [] == s.log;
    if current in s.store.tokens && r.Answered? && r.value.Replayed? {
      ReplayLogged(s.store, s.log, s.store.tokens[current].family, now);
    } else if current in s.store.tokens && r.Answered? && r.value.Rotated? {
      RotationLogged(s.store, store, s.log, current, next, now, call);
    }
  }

  lemma {:induction false} RunKeeps(actions: seq<Action>)
    ensures Logged(Run(actions).store, Run(actions).log)
  {
    if actions != [] {
      var s := Run(actions[..|actions| - 1]);
      RunKeeps(actions[..|actions| - 1]);
      match actions[|actions| - 1]
      case PutInitial(t) => FirstTokenStep(s, t);
      case Rotate(call, current, next, now) => RotateStep(s, call, current, next, now);
      case Revoke(hash, clientId, now) => RevokeLogged(s.store, s.log, hash, clientId, now);
      case Clean(now) => CleanupLogged(s.store, s.log, now);
    }
  }

  /** Here too the log is exactly what the transactions did to the tables. */
  lemma {:induction false} LogTellsChanges(actions: seq<Action>, a: Action)
    ensures var s := Run(actions); var s' := Step(s, a);
      s.log <= s'.log && Tells(s.store, s'.store, s'.log[|s.log|..])
  {
    RunKeeps(actions);
    var s := Run(actions);
    var s' := Step(s, a);
    var more := s'.log[|s.log|..];
    NothingTold(s.store);
    match a
    case PutInitial(t) =>
      if t.generation == 0 {
        PgFirstTokenMeans(s.store, t);
        if s'.store != s.store {
          FirstTokenTold(s.store, s'.store, t, true);
          assert more == If(Unknown(s.store, t.familyId), Opened(t.familyId)) + If(true, Issued(t.tokenHash));
        }
      }
    case Rotate(call, current, next, now) => RotateTells(s, call, current, next, now);
    case Revoke(hash, clientId, now) =>
      if OwnFamily(s.store, hash, clientId) {
        ClosingTold(s.store, s'.store, s.store.tokens[hash].family, true);
      }
    case Clean(now) => CleanupTold(s.store, now);
  }

  lemma {:induction false} RotateTells(s: System, call: nat, current: string, next: string, now: int)
    requires FamilyInv(s.store)
    ensures var s' := Step(s, Rotate(call, current, next, now)); s.log <= s'.log && Tells(s.store, s'.store, s'.log[|s.log|..])
  {
    var s' := Step(s, Rotate(call, current, next, now));
    var (store, r) := PgRotate(s.store, current, next, now);
    NothingTold(s.store);
    if current in s.store.tokens && r.Answered? && r.value.Replayed? {
      ClosingOfFamily(s.store, s.store.tokens[current].family, now);
      assert s'.log[|s.log|..] == If(true, Closed(s.store.tokens[current].family));
    } else if current in s.store.tokens && r.Answered? && r.value.Rotated? {
      RotationTold(s.store, store, current, next, now, call);
      assert s'.log[|s.log|..] == [RotatedFrom(current, s.store.tokens[current].family, call), Issued(next)];
    }
  }

  lemma {:induction false} FamiliesStayChains(actions: seq<Action>, family: string, member: string)
    requires InFamily(Run(actions).store, member, family)
    ensures var s := Run(actions).store;
      exists chain :: IsChain(s, family, chain) && (!Revoked(s, family) ==> OnlyUnconsumed(s, family, chain[|chain| - 1]))
  {
    RunKeeps(actions);
    FamilyIsAChain(Run(actions).store, family, member);
  }

  /** The steps are the store's own transactions. */
  lemma StepsAreTransactions(s: System, call: nat, current: string, next: string, now: int, t: StoredToken, hash: string, clientId: string)
    ensures t.generation == 0 ==> Step(s, PutInitial(t)).store == PgPutInitial(s.store, t).0
    ensures Step(s, Rotate(call, current, next, now)).store == PgRotate(s.store, current, next, now).0
    ensures Step(s, Revoke(hash, clientId, now)).store == RevokeByToken(s.store, hash, clientId, now)
    ensures Step(s, Clean(now)).store == Cleanup(s.store, now)
  {
  }

  /** As on D1: an issue before each rotation of a hash, and a new opening before a closed family rotates. */
  lemma {:induction false} RotationsAreEarned(actions: seq<Action>, i: int, j: int)
    requires var log := Run(actions).log; -1 <= i < j < |log| && log[j].RotatedFrom?
    ensures var log := Run(actions).log;
      && ((i >= 0 ==> log[i].RotatedFrom? && log[i].hash == log[j].hash) ==> exists k :: i < k < j && log[k] == Issued(log[j].hash))
      && (i >= 0 && log[i] == Closed(log[j].family) ==> exists k :: i < k < j && log[k] == Opened(log[j].family))
  {
    RunKeeps(actions);
    var log := Run(actions).log;
    if i >= 0 ==> log[i].RotatedFrom? && log[i].hash == log[j].hash {
      IssueBetweenRotations(log, i, j);
    }
    if i >= 0 && log[i] == Closed(log[j].family) {
      ReopenedBetween(log, i, j);
    }
  }
}
