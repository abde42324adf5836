/**
 * Claimed nonces, kept until their window ends: expired rows are purged before each claim and by an
 * alarm, and claims are spread over shards chosen by the nonce.
 *
 * Times of calls are milliseconds, windows are whole seconds.
 */
module NonceTables {
  import opened Wrappers

  const MAX_WINDOW_SECONDS := 360
  const MAX_SCOPE_LENGTH := 1024
  const MAX_NONCE_LENGTH := 128
  const MAX_SAFE_INTEGER := 9_007_199_254_740_991

  type Key = (string, string)

  predicate IsNonceChar(c: char) {
    'A' <= c <= 'Z' || 'a' <= c <= 'z' || '0' <= c <= '9' || c == '_' || c == '-'
  }

  predicate ValidClaim(key: Key, retainUntil: int, now: int) {
    && 0 < |key.0| <= MAX_SCOPE_LENGTH
    && 1 <= |key.1| <= MAX_NONCE_LENGTH && (forall i :: 0 <= i < |key.1| ==> IsNonceChar(key.1[i]))
    && -MAX_SAFE_INTEGER <= retainUntil <= MAX_SAFE_INTEGER
    && now < 1000 * retainUntil <= now + 1000 * MAX_WINDOW_SECONDS
  }

  function Purge(nonces: map<Key, int>, now: int): map<Key, int> {
    map k | k in nonces && now < 1000 * nonces[k] :: nonces[k]
  }

  /** What a valid claim leaves, and whether it succeeded. */
  function Claim(nonces: map<Key, int>, key: Key, retainUntil: int, now: int): (map<Key, int>, bool) {
    var kept := Purge(nonces, now);
    if key in kept then (kept, false) else (kept[key := retainUntil], true)
  }

  /** The alarm stands at the end of the window that ends first; with nothing stored it stays where it was. */
  ghost predicate ScheduledFor(nonces: map<Key, int>, before: Option<int>, alarm: Option<int>) {
    if nonces == map[] then alarm == before
    else exists k :: k in nonces && alarm == Some(1000 * nonces[k]) && forall k' :: k' in nonces ==> nonces[k] <= nonces[k']
  }

  // ---------------------------------------------------------------- runs over all shards

  /** A claim that succeeded: when, and until when it is kept. */
  datatype Claimed = Claimed(key: Key, at: int, until: int)

  datatype Store = Store(shards: map<Key, map<Key, int>>, claims: seq<Claimed>, clock: int)

  datatype Call =
    | ClaimCall(key: Key, retainUntil: int, elapsed: nat)
    | AlarmCall(shard: Key, elapsed: nat)

  function ShardOf(digest: string -> string, key: Key): Key {
    (key.0, digest(key.1))
  }

  function Stored(s: Store, shard: Key): map<Key, int> {
    if shard in s.shards then s.shards[shard] else map[]
  }

  function Step(digest: string -> string, s: Store, c: Call): Store {
    var now := s.clock + c.elapsed;
    match c
    case ClaimCall(key, until, _) =>
      if !ValidClaim(key, until, now) then s.(clock := now)
      else
        var shard := ShardOf(digest, key);
        var (nonces, ok) := Claim(Stored(s, shard), key, until, now);
        Store(s.shards[shard := nonces], if ok then s.claims + [Claimed(key, now, until)] else s.claims, now)
    case AlarmCall(shard, _) => Store(s.shards[shard := Purge(Stored(s, shard), now)], s.claims, now)
  }

  function Run(digest: string -> string, start: int, calls: seq<Call>): Store {
    if calls == [] then Store(map[], [], start) else Step(digest, Run(digest, start, calls[..|calls| - 1]), calls[|calls| - 1])
  }

  /** A claim whose window is open is still stored in the shard of its nonce. */
  ghost predicate Remembered(digest: string -> string, s: Store, c: Claimed) {
    s.clock < 1000 * c.until ==>
      var shard := ShardOf(digest, c.key);
      c.key in Stored(s, shard) && Stored(s, shard)[c.key] == c.until
  }

  ghost predicate Inv(digest: string -> string, s: Store) {
    && (forall i :: 0 <= i < |s.claims| ==> Remembered(digest, s, s.claims[i]) && s.claims[i].at <= s.clock)
    && (forall i, j :: 0 <= i < j < |s.claims| && s.claims[i].key == s.claims[j].key ==> 1000 * s.claims[i].until <= s.claims[j].at)
  }

  lemma StepKeeps(digest: string -> string, s: Store, c: Call)
    requires Inv(digest, s)
    ensures Inv(digest, Step(digest, s, c))
  {
  }

  /** What a shard stores are the open windows of successful claims, or windows that ended since. */
  ghost predicate StoredAreClaims(digest: string -> string, s: Store) {
    && (forall shard, k :: k in Stored(s, shard) ==> exists i :: 0 <= i < |s.claims| && s.claims[i].key == k && s.claims[i].until == Stored(s, shard)[k])
    && (forall i :: 0 <= i < |s.claims| ==> s.claims[i].at < 1000 * s.claims[i].until <= s.claims[i].at + 6 * 60 * 1000)
  }

  /** An earlier success of this key whose window is still open. */
  ghost predicate OpenClaim(s: Store, key: Key, now: int) {
    exists i :: 0 <= i < |s.claims| && s.claims[i].key == key && now < 1000 * s.claims[i].until
  }

  lemma {:induction false} ClaimSucceeds(digest: string -> string, s: Store, key: Key, until: int, elapsed: nat)
    requires Inv(digest, s) && StoredAreClaims(digest, s) && ValidClaim(key, until, s.clock + elapsed)
    ensures var now := s.clock + elapsed;
      Claim(Stored(s, ShardOf(digest, key)), key, until, now).1 <==> !OpenClaim(s, key, now)
  {
    var now := s.clock + elapsed;
    var shard := ShardOf(digest, key);
    if key in Purge(Stored(s, shard), now) {
      var i :| 0 <= i < |s.claims| && s.claims[i].key == key && s.claims[i].until == Stored(s, shard)[key];
    }
    if i :| 0 <= i < |s.claims| && s.claims[i].key == key && now < 1000 * s.claims[i].until {
      assert Remembered(digest, s, s.claims[i]);
    }
  }

  lemma {:induction false} StepKeepsStored(digest: string -> string, s: Store, c: Call)
    requires StoredAreClaims(digest, s)
    ensures StoredAreClaims(digest, Step(digest, s, c))
  {
    var s' := Step(digest, s, c);
    forall shard, k | k in Stored(s', shard)
      ensures exists i :: 0 <= i < |s'.claims| && s'.claims[i].key == k && s'.claims[i].until == Stored(s', shard)[k]
    {
      if k in Stored(s, shard) && Stored(s, shard)[k] == Stored(s', shard)[k] {
        var i :| 0 <= i < |s.claims| && s.claims[i].key == k && s.claims[i].until == Stored(s, shard)[k];
        assert s'.claims[i] == s.claims[i];
      } else {
        assert s'.claims[|s.claims|] == Claimed(k, s'.clock, Stored(s', shard)[k]);
      }
    }
  }

  lemma {:induction false} RunKeepsStored(digest: string -> string, start: int, calls: seq<Call>)
    ensures StoredAreClaims(digest, Run(digest, start, calls))
  {
    if calls != [] {
      RunKeepsStored(digest, start, calls[..|calls| - 1]);
      StepKeepsStored(digest, Run(digest, start, calls[..|calls| - 1]), calls[|calls| - 1]);
    }
  }

  /**
   * A valid claim succeeds, and is recorded, if and only if no earlier success of its nonce in its scope has an
   * open window; windows last at most six minutes, and a claim that is not valid changes nothing.
   */
  lemma {:induction false} ClaimsSucceedUnlessOpen(digest: string -> string, start: int, calls: seq<Call>, key: Key, until: int, elapsed: nat)
    ensures var s := Run(digest, start, calls); var s' := Step(digest, s, ClaimCall(key, until, elapsed)); var now := s.clock + elapsed;
      && s'.claims == (if ValidClaim(key, until, now) && !OpenClaim(s, key, now) then s.claims + [Claimed(key, now, until)] else s.claims)
      && (ValidClaim(key, until, now) ==> now < 1000 * until <= now + 6 * 60 * 1000)
      && (!ValidClaim(key, until, now) ==> s'.shards == s.shards)
  {
    ClaimsNeverOverlap(digest, start, calls);
    RunKeepsStored(digest, start, calls);
    var s := Run(digest, start, calls);
    if ValidClaim(key, until, s.clock + elapsed) {
      ClaimSucceeds(digest, s, key, until, elapsed);
    }
  }

  /** Valid claims have a scope and a nonce of bounded length, the nonce of letters, digits, `_` and `-`, and a window that ends within six minutes. */
  lemma ClaimsAreChecked(scope: string, nonce: string, until: int, now: int)
    ensures scope == "" || nonce == "" ==> !ValidClaim((scope, nonce), until, now)
    ensures |scope| > 1024 || |nonce| > 128 ==> !ValidClaim((scope, nonce), until, now)
    ensures (exists i :: 0 <= i < |nonce| && !IsNonceChar(nonce[i])) ==> !ValidClaim((scope, nonce), until, now)
    ensures 1000 * until <= now || now + 360_000 < 1000 * until ==> !ValidClaim((scope, nonce), until, now)
    ensures 1 <= |scope| <= 1024 && 1 <= |nonce| <= 128 && (forall i :: 0 <= i < |nonce| ==> IsNonceChar(nonce[i]))
            && now < 1000 * until <= now + 360_000 && -MAX_SAFE_INTEGER <= until <= MAX_SAFE_INTEGER ==>
              ValidClaim((scope, nonce), until, now)
  {
  }

  /** After an alarm a shard stores nothing whose window has ended, and all it stored whose window is open. */
  lemma AlarmsPurge(digest: string -> string, s: Store, shard: Key, elapsed: nat, k: Key)
    ensures var s' := Step(digest, s, AlarmCall(shard, elapsed));
      && (k in Stored(s', shard) <==> k in Stored(s, shard) && s.clock + elapsed < 1000 * Stored(s, shard)[k])
      && (k in Stored(s', shard) ==> Stored(s', shard)[k] == Stored(s, shard)[k])
      && s'.claims == s.claims && forall other :: other != shard ==> Stored(s', other) == Stored(s, other)
  {
  }

  /** Two successful claims of one nonce in one scope never overlap: the first one's window has ended when the second is made. */
  lemma {:induction false} ClaimsNeverOverlap(digest: string -> string, start: int, calls: seq<Call>)
    ensures var claims := Run(digest, start, calls).claims;
      forall i, j :: 0 <= i < j < |claims| && claims[i].key == claims[j].key ==> 1000 * claims[i].until <= claims[j].at
    ensures Inv(digest, Run(digest, start, calls))
  {
    if calls != [] {
      ClaimsNeverOverlap(digest, start, calls[..|calls| - 1]);
      StepKeeps(digest, Run(digest, start, calls[..|calls| - 1]), calls[|calls| - 1]);
    }
  }
}

module PlatformNonceObjects {
  import opened Wrappers
  import T = NonceTables

  class PlatformNonces {
    var nonces: map<T.Key, int>
    var alarm: Option<int>

    constructor ()
      ensures nonces == map[] && alarm == None
    {
      nonces, alarm := map[], None;
    }

    /** Whether the claim is new; nothing for a claim that is refused as malformed. */
    method Claim(scope: string, nonce: string, retainUntil: int, now: int) returns (claimed: Option<bool>)
      modifies this
      ensures !T.ValidClaim((scope, nonce), retainUntil, now) ==> claimed == None && nonces == old(nonces) && alarm == old(alarm)
      ensures T.ValidClaim((scope, nonce), retainUntil, now) ==>
        && claimed.Some? && (nonces, claimed.value) == T.Claim(old(nonces), (scope, nonce), retainUntil, now)
        && T.ScheduledFor(nonces, old(alarm), alarm)
    {
      if !T.ValidClaim((scope, nonce), retainUntil, now) { return None; }
      nonces := T.Purge(nonces, now);
      var isNew := (scope, nonce) !in nonces;
      if isNew { nonces := nonces[(scope, nonce) := retainUntil]; }
      ScheduleCleanup();
      return Some(isNew);
    }

    method Alarm(now: int)
      modifies this
      ensures nonces == T.Purge(old(nonces), now) && T.ScheduledFor(nonces, old(alarm), alarm)
    {
      nonces := T.Purge(nonces, now);
      ScheduleCleanup();
    }

    method ScheduleCleanup()
      modifies this`alarm
      ensures T.ScheduledFor(nonces, old(alarm), alarm)
    {
      if nonces == map[] { return; }
      var first := Pick(nonces.Keys);
      var rest := nonces.Keys;
      while rest != {}
        invariant rest <= nonces.Keys && first in nonces
        invariant forall k :: k in nonces && k !in rest ==> nonces[first] <= nonces[k]
        decreases rest
      {
        var k := Pick(rest);
        if nonces[k] < nonces[first] { first := k; }
        rest := rest - {k};
      }
      alarm := Some(1000 * nonces[first]);
    }
  }
}
