/**
 * Refresh-token families: the two tables, the statements run on them by the D1 and the Postgres
 * store, and the shape every family keeps.
 *
 * Primary keys and the unique index on (family, generation) are those of the schema migrations.
 */
module OAuthFamilies {
  import opened Wrappers

  datatype Owner = Owner(clientId: string, principalId: string, tenantId: string)
  datatype Grant = Grant(scopes: seq<string>, permissions: seq<string>, refDomain: Option<string>)

  datatype Token = Token(
    family: string, generation: int, owner: Owner, grant: Grant, createdAt: int, expiresAt: int,
    consumedAt: Option<int>, successor: Option<string>)

  datatype Family = Family(owner: Owner, createdAt: int, revokedAt: Option<int>, replayedAt: Option<int>)

  datatype Store = Store(families: map<string, Family>, tokens: map<string, Token>)

  /** The value a caller stores and gets back. */
  datatype StoredToken = StoredToken(
    tokenHash: string, familyId: string, generation: int, owner: Owner, grant: Grant, createdAt: int, expiresAt: int)

  datatype Rotation = Rotated(token: StoredToken) | Invalid | Replayed

  /** An operation answers, or throws after its batch or transaction was rolled back. */
  datatype Outcome<+T> = Answered(value: T) | Threw

  function Coalesce(value: Option<int>, now: int): Option<int> {
    if value.Some? then value else Some(now)
  }

  function Initial(t: StoredToken): Token {
    Token(t.familyId, t.generation, t.owner, t.grant, t.createdAt, t.expiresAt, None, None)
  }

  function FromRow(hash: string, t: Token): StoredToken {
    StoredToken(hash, t.family, t.generation, t.owner, t.grant, t.createdAt, t.expiresAt)
  }

  /** The row that a rotation inserts for the successor of `t`. */
  function Next(t: Token, now: int): Token {
    Token(t.family, t.generation + 1, t.owner, t.grant, now, t.expiresAt, None, None)
  }

  predicate InFamily(s: Store, hash: string, family: string) {
    hash in s.tokens && s.tokens[hash].family == family
  }

  predicate GenerationTaken(s: Store, family: string, generation: int) {
    exists h :: h in s.tokens && s.tokens[h].family == family && s.tokens[h].generation == generation
  }

  predicate Revoked(s: Store, family: string) {
    family in s.families && s.families[family].revokedAt.Some?
  }

  // ---------------------------------------------------------------- statements common to both stores

  function RevokedAt(f: Family, now: int): Family {
    f.(revokedAt := Coalesce(f.revokedAt, now))
  }

  /** The update that closes a replayed family, and the one that consumes its tokens; earlier times stay. */
  function FamilyReplayed(families: map<string, Family>, family: string, now: int): map<string, Family> {
    map f | f in families ::
      if f == family then RevokedAt(families[f], now).(replayedAt := Coalesce(families[f].replayedAt, now)) else families[f]
  }

  function TokensConsumed(tokens: map<string, Token>, family: string, now: int): map<string, Token> {
    map h | h in tokens ::
      if tokens[h].family == family then tokens[h].(consumedAt := Coalesce(tokens[h].consumedAt, now)) else tokens[h]
  }

  /** What the two deletes of cleanup keep. */
  function Unexpired(tokens: map<string, Token>, now: int): map<string, Token> {
    map h | h in tokens && now < tokens[h].expiresAt :: tokens[h]
  }

  function WithTokens(families: map<string, Family>, tokens: map<string, Token>): map<string, Family> {
    map f | f in families && (exists h :: h in tokens && tokens[h].family == f) :: families[f]
  }

  /** The family that a client's own token belongs to. */
  predicate OwnFamily(s: Store, hash: string, clientId: string) {
    hash in s.tokens && s.tokens[hash].owner.clientId == clientId && s.tokens[hash].family in s.families
  }

  /** `revoke`: one update of the family that the token of this client belongs to. */
  function RevokeByToken(s: Store, hash: string, clientId: string, now: int): Store {
    if OwnFamily(s, hash, clientId) then
      var f := s.tokens[hash].family;
      s.(families := s.families[f := RevokedAt(s.families[f], now)])
    else s
  }

  /** Replay detected: revoke the family and consume all of its tokens. */
  function RevokeReplayed(s: Store, family: string, now: int): Store {
    Store(FamilyReplayed(s.families, family, now), TokensConsumed(s.tokens, family, now))
  }

  /** Delete expired tokens, then families left without tokens. */
  function Cleanup(s: Store, now: int): Store {
    var tokens := Unexpired(s.tokens, now);
    Store(WithTokens(s.families, tokens), tokens)
  }

  // ---------------------------------------------------------------- D1: batches and reads

  /** Both inserts ignore conflicts; the second takes effect only for a matching unrevoked family. */
  function D1PutInitial(s: Store, t: StoredToken): (Store, bool) {
    var s1 := if t.familyId in s.families then s
              else s.(families := s.families[t.familyId := Family(t.owner, t.createdAt, None, None)]);
    if s1.families[t.familyId].owner == t.owner && s1.families[t.familyId].revokedAt.None?
       && t.tokenHash !in s1.tokens && !GenerationTaken(s1, t.familyId, t.generation) && 0 <= t.generation
    then (s1.(tokens := s1.tokens[t.tokenHash := Initial(t)]), true)
    else (s1, false)
  }

  /** The condition of the guarded update that consumes the current token. */
  predicate Rotatable(s: Store, current: string, next: string, now: int) {
    && current in s.tokens && next !in s.tokens
    && var t := s.tokens[current];
       t.consumedAt.None? && now < t.expiresAt && t.family in s.families && s.families[t.family].revokedAt.None?
  }

  /** The rotation batch: a guarded update, then an insert selected by what the update wrote. */
  function D1RotateBatch(s: Store, current: string, next: string, now: int): (Store, Outcome<bool>) {
    var s1 := if Rotatable(s, current, next, now)
              then s.(tokens := s.tokens[current := s.tokens[current].(consumedAt := Some(now), successor := Some(next))])
              else s;
    if current in s1.tokens && s1.tokens[current].consumedAt == Some(now) && s1.tokens[current].successor == Some(next) then
      var t := s1.tokens[current];
      if next in s1.tokens || GenerationTaken(s1, t.family, t.generation + 1) || t.generation + 1 < 0 then (s, Threw)
      else (s1.(tokens := s1.tokens[next := Next(t, now)]), Answered(true))
    else (s1, Answered(false))
  }

  /** A token joined with its family. */
  function Find(s: Store, hash: string): Option<(Token, Family)> {
    if hash in s.tokens && s.tokens[hash].family in s.families
    then Some((s.tokens[hash], s.families[s.tokens[hash].family]))
    else None
  }

  /** What the read of the current token decides after a rotation batch that inserted nothing. */
  function ReplayedFamily(s: Store, current: string): Option<string> {
    var row := Find(s, current);
    if row.None? || row.value.0.consumedAt.None? || row.value.1.revokedAt.Some? then None
    else Some(row.value.0.family)
  }

  /** A whole D1 rotation with nothing between its three calls. */
  function D1Rotate(s: Store, current: string, next: string, now: int): (Store, Outcome<Rotation>) {
    var (s1, inserted) := D1RotateBatch(s, current, next, now);
    if inserted.Threw? then (s1, Threw)
    else if inserted.value then
      var row := Find(s1, next);
      if row.None? then (s1, Threw) else (s1, Answered(Rotated(FromRow(next, row.value.0))))
    else
      var replayed := ReplayedFamily(s1, current);
      if replayed.None? then (s1, Answered(Invalid))
      else (RevokeReplayed(s1, replayed.value, now), Answered(Replayed))
  }

  // ---------------------------------------------------------------- Postgres: one transaction each

  function PgPutInitial(s: Store, t: StoredToken): (Store, Outcome<bool>) {
    if t.familyId in s.families then (s, Answered(false))
    else if t.tokenHash in s.tokens || GenerationTaken(s, t.familyId, t.generation) || t.generation < 0 then (s, Threw)
    else
      (Store(s.families[t.familyId := Family(t.owner, t.createdAt, None, None)], s.tokens[t.tokenHash := Initial(t)]),
       Answered(true))
  }

  function PgRotate(s: Store, current: string, next: string, now: int): (Store, Outcome<Rotation>) {
    var row := Find(s, current);
    if row.None? || row.value.1.revokedAt.Some? || row.value.0.expiresAt <= now then (s, Answered(Invalid))
    else if row.value.0.consumedAt.Some? then (RevokeReplayed(s, row.value.0.family, now), Answered(Replayed))
    else if next in s.tokens then (s, Answered(Invalid))
    else
      var t := row.value.0;
      if GenerationTaken(s, t.family, t.generation + 1) || t.generation + 1 < 0 then (s, Threw)
      else
        (s.(tokens := s.tokens[current := t.(consumedAt := Some(now), successor := Some(next))][next := Next(t, now)]),
         Answered(Rotated(FromRow(next, Next(t, now)))))
  }

  // ---------------------------------------------------------------- the shape of a family

  predicate Precedes(s: Store, h: string, h': string) {
    h in s.tokens && s.tokens[h].successor == Some(h')
  }

  ghost predicate SoundToken(s: Store, h: string)
    requires h in s.tokens
  {
    var t := s.tokens[h];
    && t.family in s.families && s.families[t.family].owner == t.owner
    && 0 <= t.generation
    && (t.successor.Some? ==>
          && t.consumedAt.Some? && t.consumedAt.value < t.expiresAt
          && t.successor.value in s.tokens
          && var n := s.tokens[t.successor.value]; n.family == t.family && n.generation == t.generation + 1)
    && (t.generation > 0 ==> exists p :: Precedes(s, p, h))
    && (t.successor.None? && t.consumedAt.Some? ==> Revoked(s, t.family))
  }

  predicate SameFamily(s: Store, h: string, h': string) {
    h in s.tokens && h' in s.tokens && s.tokens[h].family == s.tokens[h'].family
  }

  ghost predicate FamilyInv(s: Store) {
    && (forall h {:trigger SoundToken(s, h)} :: h in s.tokens ==> SoundToken(s, h))
    && (forall h, h' :: SameFamily(s, h, h') ==>
          && s.tokens[h].expiresAt == s.tokens[h'].expiresAt && s.tokens[h].grant == s.tokens[h'].grant
          && (s.tokens[h].generation == s.tokens[h'].generation ==> h == h'))
  }

  // ---------------------------------------------------------------- the chain

  /** Every generation below a token's own occurs in its family, consumed and succeeded. */
  lemma {:induction false} Ancestor(s: Store, h: string, generation: int) returns (a: string)
    requires FamilyInv(s) && h in s.tokens && 0 <= generation <= s.tokens[h].generation
    ensures a in s.tokens && s.tokens[a].family == s.tokens[h].family && s.tokens[a].generation == generation
    ensures generation < s.tokens[h].generation ==> s.tokens[a].successor.Some? && s.tokens[a].consumedAt.Some?
    decreases s.tokens[h].generation
  {
    a := h;
    if generation < s.tokens[h].generation {
      assert SoundToken(s, h);
      var p :| Precedes(s, p, h);
      assert SoundToken(s, p);
      a := Ancestor(s, p, generation);
    }
  }

  ghost function Later(s: Store, h: string): set<string>
    requires h in s.tokens
  {
    set x | x in s.tokens && s.tokens[h].generation < s.tokens[x].generation
  }

  /** Following successors from any token ends in one without a successor. */
  lemma {:induction false} TailFrom(s: Store, h: string) returns (tail: string)
    requires FamilyInv(s) && h in s.tokens
    ensures tail in s.tokens && s.tokens[tail].family == s.tokens[h].family && s.tokens[tail].successor.None?
    decreases Later(s, h)
  {
    tail := h;
    if s.tokens[h].successor.Some? {
      assert SoundToken(s, h);
      var next := s.tokens[h].successor.value;
      assert Later(s, next) <= Later(s, h) && next in Later(s, h) && next !in Later(s, next);
      tail := TailFrom(s, next);
    }
  }

  /**
   * The tokens of a family in one line: place k holds generation k, every token but the last is consumed and
   * names the next one as its successor, all share owner, grant and expiry, and no token of the family is elsewhere.
   */
  ghost predicate IsChain(s: Store, family: string, chain: seq<string>) {
    && chain != []
    && (forall k :: 0 <= k < |chain| ==> Placed(s, family, chain, k))
    && (forall h :: InFamily(s, h, family) ==> 0 <= s.tokens[h].generation < |chain| && chain[s.tokens[h].generation] == h)
  }

  ghost predicate Placed(s: Store, family: string, chain: seq<string>, k: nat)
    requires k < |chain|
  {
    && InFamily(s, chain[k], family) && InFamily(s, chain[0], family)
    && var t := s.tokens[chain[k]];
       && t.generation == k && t.owner == s.tokens[chain[0]].owner
       && t.grant == s.tokens[chain[0]].grant && t.expiresAt == s.tokens[chain[0]].expiresAt
       && (k < |chain| - 1 ==> t.consumedAt.Some? && t.successor == Some(chain[k + 1]))
       && (k == |chain| - 1 ==> t.successor.None?)
  }

  ghost predicate OnlyUnconsumed(s: Store, family: string, tail: string) {
    forall h :: InFamily(s, h, family) ==> (s.tokens[h].consumedAt.None? <==> h == tail)
  }

  /** From the root of its family to any token, each naming the next. */
  lemma {:induction false} LineTo(s: Store, h: string) returns (line: seq<string>)
    requires FamilyInv(s) && h in s.tokens
    ensures |line| == s.tokens[h].generation + 1 > 0 && line[|line| - 1] == h
    ensures forall k :: 0 <= k < |line| ==> InFamily(s, line[k], s.tokens[h].family) && s.tokens[line[k]].generation == k
    ensures forall k :: 0 <= k < |line| - 1 ==> Precedes(s, line[k], line[k + 1])
    decreases s.tokens[h].generation
  {
    assert SoundToken(s, h);
    if s.tokens[h].generation == 0 {
      line := [h];
    } else {
      var p :| Precedes(s, p, h);
      assert SoundToken(s, p);
      line := LineTo(s, p);
      line := line + [h];
    }
  }

  /**
   * A family that has any token is one chain. If it is not revoked, its last token is the one that is not
   * consumed, so exactly one of its tokens can be rotated.
   */
  lemma FamilyIsAChain(s: Store, family: string, member: string)
    requires FamilyInv(s) && InFamily(s, member, family)
    ensures exists chain :: IsChain(s, family, chain) && (!Revoked(s, family) ==> OnlyUnconsumed(s, family, chain[|chain| - 1]))
  {
    var tail := TailFrom(s, member);
    assert SoundToken(s, tail);
    var chain := LineTo(s, tail);
    forall k | 0 <= k < |chain| ensures Placed(s, family, chain, k) {
      assert k < |chain| - 1 ==> Precedes(s, chain[k], chain[k + 1]);
      assert SameFamily(s, chain[k], tail) && SameFamily(s, chain[0], tail);
      assert SoundToken(s, chain[k]) && SoundToken(s, chain[0]);
    }
    forall h | InFamily(s, h, family) ensures 0 <= s.tokens[h].generation < |chain| && chain[s.tokens[h].generation] == h {
      TailIsLast(s, tail, h);
      assert SoundToken(s, h) && SameFamily(s, h, chain[s.tokens[h].generation]);
    }
    assert IsChain(s, family, chain);
    if !Revoked(s, family) {
      forall h | InFamily(s, h, family) ensures s.tokens[h].consumedAt.None? <==> h == tail {
        assert Placed(s, family, chain, s.tokens[h].generation);
      }
    }
  }

  lemma TailIsLast(s: Store, tail: string, h: string)
    requires FamilyInv(s) && SameFamily(s, h, tail) && s.tokens[tail].successor.None?
    ensures s.tokens[h].generation <= s.tokens[tail].generation
  {
    if s.tokens[tail].generation < s.tokens[h].generation {
      assert SoundToken(s, tail);
      var a := Ancestor(s, h, s.tokens[tail].generation);
      assert SameFamily(s, a, tail);
    }
  }

  /** Nothing follows a token without a successor, so its next generation is free. */
  lemma NextGenerationIsFree(s: Store, h: string)
    requires FamilyInv(s) && h in s.tokens && s.tokens[h].successor.None?
    ensures !GenerationTaken(s, s.tokens[h].family, s.tokens[h].generation + 1)
  {
    var t := s.tokens[h];
    if GenerationTaken(s, t.family, t.generation + 1) {
      var n :| n in s.tokens && s.tokens[n].family == t.family && s.tokens[n].generation == t.generation + 1;
      assert SoundToken(s, h);
      var a := Ancestor(s, n, t.generation);
      assert SameFamily(s, a, h);
    }
  }

  /** Rewriting a row without moving it in its chain leaves the occupied generations as they were. */
  lemma RewriteKeepsGenerations(s: Store, current: string, t: Token, family: string, generation: int)
    requires current in s.tokens && t.family == s.tokens[current].family && t.generation == s.tokens[current].generation
    ensures GenerationTaken(s.(tokens := s.tokens[current := t]), family, generation) == GenerationTaken(s, family, generation)
  {
    var s' := s.(tokens := s.tokens[current := t]);
    assert forall h :: h in s.tokens ==>
        h in s'.tokens && s'.tokens[h].family == s.tokens[h].family && s'.tokens[h].generation == s.tokens[h].generation;
  }

  // ---------------------------------------------------------------- every statement keeps the shape

  /** The new tokens table after a rotation that took effect. */
  predicate RotatedTo(s: Store, s': Store, current: string, next: string, now: int) {
    && Rotatable(s, current, next, now)
    && s' == s.(tokens := s.tokens[current := s.tokens[current].(consumedAt := Some(now), successor := Some(next))]
                                  [next := Next(s.tokens[current], now)])
  }

  /** A D1 insert succeeds exactly when the same batch consumed the token it names. */
  lemma InsertMeansOwnUpdate(s: Store, current: string, next: string, now: int)
    requires FamilyInv(s)
    ensures var (s', inserted) := D1RotateBatch(s, current, next, now);
            && (inserted == Answered(true) <==> Rotatable(s, current, next, now))
            && (inserted == Answered(true) ==> RotatedTo(s, s', current, next, now))
            && (inserted != Answered(true) ==> s' == s)
            && (inserted == Threw <==>
                  current in s.tokens && s.tokens[current].consumedAt == Some(now) && s.tokens[current].successor == Some(next))
  {
    if current in s.tokens {
      assert SoundToken(s, current);
      if Rotatable(s, current, next, now) {
        NextGenerationIsFree(s, current);
        var t := s.tokens[current];
        var s1 := s.(tokens := s.tokens[current := t.(consumedAt := Some(now), successor := Some(next))]);
        RewriteKeepsGenerations(s, current, s1.tokens[current], t.family, t.generation + 1);
      }
    }
  }

  lemma RotationKeepsTokensSound(s: Store, s': Store, current: string, next: string, now: int, h: string)
    requires FamilyInv(s) && RotatedTo(s, s', current, next, now) && h in s'.tokens
    ensures SoundToken(s', h)
  {
    assert SoundToken(s, current);
    if h == next {
      assert Precedes(s', current, next);
    } else {
      assert SoundToken(s, h);
      if s.tokens[h].generation > 0 {
        var p :| Precedes(s, p, h);
        assert Precedes(s', p, h);
      }
    }
  }

  lemma RotationKeepsGenerationsApart(s: Store, s': Store, current: string, next: string, now: int, h: string, h': string)
    requires FamilyInv(s) && RotatedTo(s, s', current, next, now) && SameFamily(s', h, h')
    ensures s'.tokens[h].expiresAt == s'.tokens[h'].expiresAt && s'.tokens[h].grant == s'.tokens[h'].grant
    ensures s'.tokens[h].generation == s'.tokens[h'].generation ==> h == h'
  {
    assert SoundToken(s, current);
    NextGenerationIsFree(s, current);
    var origin := (x: string) => if x == next then current else x;
    assert SameFamily(s, origin(h), origin(h'));
  }

  lemma RotationKeepsFamilies(s: Store, s': Store, current: string, next: string, now: int)
    requires FamilyInv(s) && RotatedTo(s, s', current, next, now)
    ensures FamilyInv(s')
  {
    forall h | h in s'.tokens ensures SoundToken(s', h) {
      RotationKeepsTokensSound(s, s', current, next, now, h);
    }
    forall h, h' | SameFamily(s', h, h')
      ensures s'.tokens[h].expiresAt == s'.tokens[h'].expiresAt && s'.tokens[h].grant == s'.tokens[h'].grant
      ensures s'.tokens[h].generation == s'.tokens[h'].generation ==> h == h'
    {
      RotationKeepsGenerationsApart(s, s', current, next, now, h, h');
    }
  }

  lemma ReplayKeepsFamilies(s: Store, family: string, now: int)
    requires FamilyInv(s)
    ensures FamilyInv(RevokeReplayed(s, family, now))
  {
    var s' := RevokeReplayed(s, family, now);
    forall h | h in s'.tokens ensures SoundToken(s', h) {
      assert SoundToken(s, h);
      assert forall p :: Precedes(s, p, h) ==> Precedes(s', p, h);
    }
    assert forall h, h' :: SameFamily(s', h, h') ==> SameFamily(s, h, h');
  }

  lemma RevokeKeepsFamilies(s: Store, hash: string, clientId: string, now: int)
    requires FamilyInv(s)
    ensures FamilyInv(RevokeByToken(s, hash, clientId, now))
  {
    var s' := RevokeByToken(s, hash, clientId, now);
    forall h | h in s'.tokens ensures SoundToken(s', h) {
      assert SoundToken(s, h);
      assert forall p :: Precedes(s, p, h) ==> Precedes(s', p, h);
    }
    assert forall h, h' :: SameFamily(s', h, h') ==> SameFamily(s, h, h');
  }

  /** Cleanup takes all of a family's tokens or none, and the family row goes with them. */
  lemma CleanupIsAllOrNothing(s: Store, now: int, h: string, h': string)
    requires FamilyInv(s) && SameFamily(s, h, h')
    ensures h in Cleanup(s, now).tokens <==> h' in Cleanup(s, now).tokens
    ensures h in Cleanup(s, now).tokens <==> s.tokens[h].family in Cleanup(s, now).families
  {
    var s' := Cleanup(s, now);
    assert SoundToken(s, h);
    if s.tokens[h].family in s'.families {
      var x :| x in s'.tokens && s'.tokens[x].family == s.tokens[h].family;
      assert SameFamily(s, x, h);
    }
  }

  lemma CleanupKeepsFamilies(s: Store, now: int)
    requires FamilyInv(s)
    ensures FamilyInv(Cleanup(s, now))
  {
    var s' := Cleanup(s, now);
    forall h | h in s'.tokens ensures SoundToken(s', h) {
      assert SoundToken(s, h);
      if s.tokens[h].successor.Some? {
        assert SameFamily(s, h, s.tokens[h].successor.value);
      }
      if s.tokens[h].generation > 0 {
        var p :| Precedes(s, p, h);
        assert SoundToken(s, p) && SameFamily(s, p, h);
        assert Precedes(s', p, h);
      }
    }
    assert forall h, h' :: SameFamily(s', h, h') ==> SameFamily(s, h, h');
  }

  /** `s'` is `s` with a first token for a family that had none. */
  predicate RootAdded(s: Store, s': Store, t: StoredToken) {
    && t.generation == 0 && t.tokenHash !in s.tokens && s'.tokens == s.tokens[t.tokenHash := Initial(t)]
    && t.familyId in s'.families && s'.families[t.familyId].owner == t.owner
    && (s'.families == s.families || (t.familyId !in s.families && s'.families == s.families[t.familyId := s'.families[t.familyId]]))
    && forall h :: h in s.tokens ==> s.tokens[h].family != t.familyId
  }

  lemma RootKeepsFamilies(s: Store, s': Store, t: StoredToken)
    requires FamilyInv(s) && RootAdded(s, s', t)
    ensures FamilyInv(s')
  {
    forall h | h in s'.tokens ensures SoundToken(s', h) {
      if h in s.tokens {
        assert SoundToken(s, h);
        assert forall p :: Precedes(s, p, h) ==> Precedes(s', p, h);
      }
    }
    assert forall h, h' :: SameFamily(s', h, h') && h in s.tokens && h' in s.tokens ==> SameFamily(s, h, h');
  }

  /** The unique index keeps a family from getting a second root, so a repeated family id is harmless. */
  lemma D1PutInitialKeepsFamilies(s: Store, t: StoredToken)
    requires FamilyInv(s) && t.generation == 0
    ensures FamilyInv(D1PutInitial(s, t).0)
  {
    var (s', inserted) := D1PutInitial(s, t);
    if inserted {
      forall h | h in s.tokens ensures s.tokens[h].family != t.familyId {
        assert SoundToken(s, h);
        if s.tokens[h].family == t.familyId {
          var root := Ancestor(s, h, 0);
        }
      }
      RootKeepsFamilies(s, s', t);
    } else {
      FamilyRowKeepsFamilies(s, s');
    }
  }

  lemma FamilyRowKeepsFamilies(s: Store, s': Store)
    requires FamilyInv(s) && s'.tokens == s.tokens
    requires forall f :: f in s.families ==> f in s'.families && s'.families[f] == s.families[f]
    ensures FamilyInv(s')
  {
    forall h | h in s'.tokens ensures SoundToken(s', h) {
      assert SoundToken(s, h);
      assert forall p :: Precedes(s, p, h) ==> Precedes(s', p, h);
    }
    assert forall h, h' :: SameFamily(s', h, h') ==> SameFamily(s, h, h');
  }

  lemma PgPutInitialKeepsFamilies(s: Store, t: StoredToken)
    requires FamilyInv(s) && t.generation == 0
    ensures FamilyInv(PgPutInitial(s, t).0)
  {
    var s' := PgPutInitial(s, t).0;
    if s' != s {
      forall h | h in s.tokens ensures s.tokens[h].family != t.familyId {
        assert SoundToken(s, h);
      }
      RootKeepsFamilies(s, s', t);
    }
  }

  lemma PgRotateKeepsFamilies(s: Store, current: string, next: string, now: int)
    requires FamilyInv(s)
    ensures FamilyInv(PgRotate(s, current, next, now).0)
  {
    var s' := PgRotate(s, current, next, now).0;
    if current in s.tokens {
      assert SoundToken(s, current);
      ReplayKeepsFamilies(s, s.tokens[current].family, now);
      if Rotatable(s, current, next, now) {
        NextGenerationIsFree(s, current);
        RotationKeepsFamilies(s, s', current, next, now);
      }
    }
  }

  // ---------------------------------------------------------------- what each operation does, row by row

  /** The successor carries everything of the old token but its hash, number and time. */
  predicate Succeeds(was: Token, x: StoredToken, next: string, now: int) {
    && x.tokenHash == next && x.familyId == was.family && x.generation == was.generation + 1
    && x.owner.clientId == was.owner.clientId && x.owner.principalId == was.owner.principalId && x.owner.tenantId == was.owner.tenantId
    && x.grant.scopes == was.grant.scopes && x.grant.permissions == was.grant.permissions && x.grant.refDomain == was.grant.refDomain
    && x.createdAt == now && x.expiresAt == was.expiresAt
  }

  /** A row holds this token, consumed or not, with its successor. */
  predicate Holds(row: Token, x: StoredToken, consumedAt: Option<int>, successor: Option<string>) {
    && row.family == x.familyId && row.generation == x.generation
    && row.owner.clientId == x.owner.clientId && row.owner.principalId == x.owner.principalId && row.owner.tenantId == x.owner.tenantId
    && row.grant.scopes == x.grant.scopes && row.grant.permissions == x.grant.permissions && row.grant.refDomain == x.grant.refDomain
    && row.createdAt == x.createdAt && row.expiresAt == x.expiresAt
    && row.consumedAt == consumedAt && row.successor == successor
  }

  predicate SameRow(row: Token, row': Token) {
    && row'.family == row.family && row'.generation == row.generation && row'.owner == row.owner && row'.grant == row.grant
    && row'.createdAt == row.createdAt && row'.expiresAt == row.expiresAt && row'.successor == row.successor
  }

  /** The current token is consumed at this time in favour of the next, which is stored; nothing else changed. */
  ghost predicate Replaces(s: Store, s': Store, current: string, next: string, now: int, x: StoredToken) {
    && current in s.tokens && Succeeds(s.tokens[current], x, next, now)
    && s'.families == s.families && s'.tokens.Keys == s.tokens.Keys + {next} && next !in s.tokens
    && Holds(s'.tokens[next], x, None, None)
    && SameRow(s.tokens[current].(successor := Some(next)), s'.tokens[current]) && s'.tokens[current].consumedAt == Some(now)
    && forall h :: h in s.tokens && h != current ==> s'.tokens[h] == s.tokens[h]
  }

  predicate TimeSet(before: Option<int>, after: Option<int>, now: int) {
    after == if before.Some? then before else Some(now)
  }

  /** The family is revoked and replayed, all its tokens are consumed, earlier times stay; nothing else changed. */
  ghost predicate ClosesReplayed(s: Store, s': Store, family: string, now: int) {
    && s'.families.Keys == s.families.Keys && s'.tokens.Keys == s.tokens.Keys
    && (forall f :: f in s.families && f != family ==> s'.families[f] == s.families[f])
    && (family in s.families ==>
          && TimeSet(s.families[family].revokedAt, s'.families[family].revokedAt, now)
          && TimeSet(s.families[family].replayedAt, s'.families[family].replayedAt, now)
          && s'.families[family].owner == s.families[family].owner && s'.families[family].createdAt == s.families[family].createdAt)
    && (forall h :: h in s.tokens && s.tokens[h].family != family ==> s'.tokens[h] == s.tokens[h])
    && (forall h :: h in s.tokens && s.tokens[h].family == family ==>
          SameRow(s.tokens[h], s'.tokens[h]) && TimeSet(s.tokens[h].consumedAt, s'.tokens[h].consumedAt, now))
  }

  /** A token of a family that is not revoked. */
  predicate OfOpenFamily(s: Store, h: string) {
    h in s.tokens && s.tokens[h].family in s.families && s.families[s.tokens[h].family].revokedAt.None?
  }

  /**
   * The undisturbed D1 rotation: it rotates exactly an unconsumed, unexpired token of an open family to a free
   * hash, and closes the family exactly of a consumed token of an open family, unless it repeats the very
   * rotation recorded there, which throws. Everything else is invalid and changes nothing.
   */
  lemma D1RotationMeans(s: Store, current: string, next: string, now: int)
    requires FamilyInv(s)
    ensures var (s', r) := D1Rotate(s, current, next, now);
      var repeated := current in s.tokens && s.tokens[current].consumedAt == Some(now) && s.tokens[current].successor == Some(next);
      && (r.Threw? <==> repeated)
      && (r.Answered? && r.value.Rotated? <==>
            OfOpenFamily(s, current) && s.tokens[current].consumedAt.None? && now < s.tokens[current].expiresAt && next !in s.tokens)
      && (r.Answered? && r.value.Replayed? <==> OfOpenFamily(s, current) && s.tokens[current].consumedAt.Some? && !repeated)
      && (r.Answered? && r.value.Rotated? ==> Replaces(s, s', current, next, now, r.value.token))
      && (r.Answered? && r.value.Replayed? ==> ClosesReplayed(s, s', s.tokens[current].family, now))
      && (r.Threw? || r.value.Invalid? ==> s' == s)
  {
    InsertMeansOwnUpdate(s, current, next, now);
    var (s1, inserted) := D1RotateBatch(s, current, next, now);
    if inserted == Answered(true) {
      assert SoundToken(s, current);
    } else if current in s.tokens {
    }
  }

  /** The Postgres rotation: as on D1, but a token that expired is invalid even if it was consumed, and nothing throws. */
  lemma PgRotationMeans(s: Store, current: string, next: string, now: int)
    requires FamilyInv(s)
    ensures var (s', r) := PgRotate(s, current, next, now);
      && r.Answered?
      && (r.value.Rotated? <==>
            OfOpenFamily(s, current) && s.tokens[current].consumedAt.None? && now < s.tokens[current].expiresAt && next !in s.tokens)
      && (r.value.Replayed? <==> OfOpenFamily(s, current) && s.tokens[current].consumedAt.Some? && now < s.tokens[current].expiresAt)
      && (r.value.Rotated? ==> Replaces(s, s', current, next, now, r.value.token))
      && (r.value.Replayed? ==> ClosesReplayed(s, s', s.tokens[current].family, now))
      && (r.value.Invalid? ==> s' == s)
  {
    if current in s.tokens {
      assert SoundToken(s, current);
      if Rotatable(s, current, next, now) {
        NextGenerationIsFree(s, current);
      }
    }
  }

  /** A first token is stored as given, unconsumed, in a family of its owner; other rows are as before. */
  ghost predicate Stores(s: Store, s': Store, t: StoredToken) {
    && t.tokenHash !in s.tokens && s'.tokens.Keys == s.tokens.Keys + {t.tokenHash} && Holds(s'.tokens[t.tokenHash], t, None, None)
    && (forall h :: h in s.tokens ==> s'.tokens[h] == s.tokens[h])
    && OpensFor(s, s', t)
  }

  /** The family of this owner is there, opened now and not revoked if it was not there before; no other is touched. */
  predicate OpensFor(s: Store, s': Store, t: StoredToken) {
    && s'.families.Keys == s.families.Keys + {t.familyId} && (forall f :: f in s.families ==> s'.families[f] == s.families[f])
    && (t.familyId !in s.families ==>
          && s'.families[t.familyId].owner == t.owner && s'.families[t.familyId].createdAt == t.createdAt
          && s'.families[t.familyId].revokedAt.None? && s'.families[t.familyId].replayedAt.None?)
  }

  /** D1 stores a first token exactly if its hash is free and its family is new or an open one of this owner without tokens. */
  lemma D1FirstTokenMeans(s: Store, t: StoredToken)
    requires FamilyInv(s) && t.generation == 0
    ensures var (s', inserted) := D1PutInitial(s, t);
      && (inserted <==>
            && t.tokenHash !in s.tokens && (forall h :: h in s.tokens ==> s.tokens[h].family != t.familyId)
            && (t.familyId in s.families ==> s.families[t.familyId].owner == t.owner && s.families[t.familyId].revokedAt.None?))
      && (inserted ==> Stores(s, s', t))
      && (!inserted ==> s'.tokens == s.tokens && OpensFor(s, s', t))
  {
    forall h | h in s.tokens && s.tokens[h].family == t.familyId ensures GenerationTaken(s, t.familyId, 0) {
      assert SoundToken(s, h);
      var root := Ancestor(s, h, 0);
    }
    if GenerationTaken(s, t.familyId, 0) {
      var h :| h in s.tokens && s.tokens[h].family == t.familyId && s.tokens[h].generation == 0;
    }
  }

  /** Postgres stores it exactly if its hash and its family are new, and rolls back if only the hash is not. */
  lemma PgFirstTokenMeans(s: Store, t: StoredToken)
    requires FamilyInv(s) && t.generation == 0
    ensures var (s', r) := PgPutInitial(s, t);
      && (r == Answered(true) <==> t.familyId !in s.families && t.tokenHash !in s.tokens)
      && (r == Threw <==> t.familyId !in s.families && t.tokenHash in s.tokens)
      && (r == Answered(true) ==> Stores(s, s', t))
      && (r != Answered(true) ==> s' == s)
  {
    if GenerationTaken(s, t.familyId, 0) {
      var h :| h in s.tokens && s.tokens[h].family == t.familyId && s.tokens[h].generation == 0;
      assert SoundToken(s, h);
    }
  }

  /** A client's own token revokes its family, keeping an earlier time; nothing else changes, whoever else calls. */
  lemma RevocationMeans(s: Store, hash: string, clientId: string, now: int, f: string)
    requires FamilyInv(s)
    ensures var s' := RevokeByToken(s, hash, clientId, now);
      && s'.tokens == s.tokens && s'.families.Keys == s.families.Keys
      && (f in s.families ==>
            && s'.families[f].owner == s.families[f].owner && s'.families[f].createdAt == s.families[f].createdAt
            && s'.families[f].replayedAt == s.families[f].replayedAt
            && if hash in s.tokens && s.tokens[hash].family == f && s.tokens[hash].owner.clientId == clientId
               then TimeSet(s.families[f].revokedAt, s'.families[f].revokedAt, now)
               else s'.families[f] == s.families[f])
      && (hash in s.tokens && s.tokens[hash].owner.clientId == clientId ==> Revoked(s', s.tokens[hash].family))
  {
    if hash in s.tokens {
      assert SoundToken(s, hash);
    }
  }

  /** Cleanup keeps exactly the unexpired tokens and the families that have one, as they were. */
  lemma CleanupMeans(s: Store, now: int)
    ensures var s' := Cleanup(s, now);
      && (forall h :: h in s'.tokens <==> h in s.tokens && s.tokens[h].expiresAt > now)
      && (forall h :: h in s'.tokens ==> s'.tokens[h] == s.tokens[h])
      && (forall f :: f in s'.families <==> f in s.families && exists h :: InFamily(s, h, f) && s.tokens[h].expiresAt > now)
      && (forall f :: f in s'.families ==> s'.families[f] == s.families[f])
  {
    var s' := Cleanup(s, now);
    forall f | f in s.families ensures f in s'.families <==> exists h :: InFamily(s, h, f) && s.tokens[h].expiresAt > now {
      if f in s'.families {
        var h :| h in s'.tokens && s'.tokens[h].family == f;
        assert InFamily(s, h, f);
      }
      if h :| InFamily(s, h, f) && s.tokens[h].expiresAt > now {
        assert h in s'.tokens;
      }
    }
  }

  // ---------------------------------------------------------------- D1 against Postgres

  /**
   * Where the two stores part: a token both consumed and expired in a live family, which only D1 treats
   * as a replay, and a repeat of the very rotation already recorded in the same second, which makes
   * D1's insert collide with its own earlier row.
   */
  predicate StoresPart(s: Store, current: string, next: string, now: int) {
    && current in s.tokens
    && var t := s.tokens[current];
       || (!Revoked(s, t.family) && t.consumedAt.Some? && t.expiresAt <= now)
       || (t.consumedAt == Some(now) && t.successor == Some(next))
  }

  /** Run without interference, the D1 rotation and the Postgres transaction agree exactly outside `StoresPart`. */
  lemma D1RefinesPostgres(s: Store, current: string, next: string, now: int)
    requires FamilyInv(s)
    ensures D1Rotate(s, current, next, now) == PgRotate(s, current, next, now) <==> !StoresPart(s, current, next, now)
  {
    InsertMeansOwnUpdate(s, current, next, now);
    if current in s.tokens {
      assert SoundToken(s, current);
      if Rotatable(s, current, next, now) {
        NextGenerationIsFree(s, current);
      }
    }
  }
}
