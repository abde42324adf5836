/** The two refresh-token stores, each over its own pair of tables. */
module OAuthStores {
  import opened Wrappers
  import opened OAuthFamilies

  /** D1: guarded statements in batches, with reads between them. */
  class D1RefreshTokens {
    var families: map<string, Family>
    var tokens: map<string, Token>

    function State(): Store
      reads this
    {
      Store(families, tokens)
    }

    method PutInitial(token: StoredToken) returns (inserted: bool)
      modifies this
      ensures (State(), inserted) == D1PutInitial(old(State()), token)
    {
      if token.familyId !in families {
        families := families[token.familyId := Family(token.owner, token.createdAt, None, None)];
      }
      var family := families[token.familyId];
      inserted := family.owner == token.owner && family.revokedAt.None? && token.tokenHash !in tokens
                  && !GenerationTaken(State(), token.familyId, token.generation) && 0 <= token.generation;
      if inserted {
        tokens := tokens[token.tokenHash := Initial(token)];
      }
    }

    method Rotate(currentHash: string, nextHash: string, now: int) returns (r: Outcome<Rotation>)
      modifies this
      ensures (State(), r) == D1Rotate(old(State()), currentHash, nextHash, now)
    {
      var inserted := RotateBatch(currentHash, nextHash, now);
      if inserted.Threw? { return Threw; }
      if inserted.value {
        var row := Find(State(), nextHash);
        if row.None? { return Threw; }
        return Answered(Rotated(FromRow(nextHash, row.value.0)));
      }
      var current := Find(State(), currentHash);
      if current.None? || current.value.0.consumedAt.None? || current.value.1.revokedAt.Some? {
        return Answered(Invalid);
      }
      ReplayBatch(current.value.0.family, now);
      return Answered(Replayed);
    }

    method RotateBatch(currentHash: string, nextHash: string, now: int) returns (inserted: Outcome<bool>)
      modifies this
      ensures (State(), inserted) == D1RotateBatch(old(State()), currentHash, nextHash, now)
    {
      var before := tokens;
      if Rotatable(State(), currentHash, nextHash, now) {
        tokens := tokens[currentHash := tokens[currentHash].(consumedAt := Some(now), successor := Some(nextHash))];
      }
      if currentHash in tokens && tokens[currentHash].consumedAt == Some(now) && tokens[currentHash].successor == Some(nextHash) {
        var t := tokens[currentHash];
        if nextHash in tokens || GenerationTaken(State(), t.family, t.generation + 1) || t.generation + 1 < 0 {
          tokens := before;  // a failed statement rolls its batch back
          return Threw;
        }
        tokens := tokens[nextHash := Next(t, now)];
        return Answered(true);
      }
      return Answered(false);
    }

    method ReplayBatch(family: string, now: int)
      modifies this
      ensures State() == RevokeReplayed(old(State()), family, now)
    {
      families := FamilyReplayed(families, family, now);
      tokens := TokensConsumed(tokens, family, now);
    }

    method Revoke(tokenHash: string, clientId: string, now: int)
      modifies this
      ensures State() == RevokeByToken(old(State()), tokenHash, clientId, now)
    {
      if OwnFamily(State(), tokenHash, clientId) {
        var f := tokens[tokenHash].family;
        families := families[f := RevokedAt(families[f], now)];
      }
    }

    method CleanupExpired(now: int)
      modifies this
      ensures State() == Cleanup(old(State()), now)
    {
      tokens := Unexpired(tokens, now);
      families := WithTokens(families, tokens);
    }
  }

  /** Postgres: one transaction an operation, holding row locks on the token and its family. */
  class PgRefreshTokens {
    var families: map<string, Family>
    var tokens: map<string, Token>

    function State(): Store
      reads this
    {
      Store(families, tokens)
    }

    method PutInitial(token: StoredToken) returns (r: Outcome<bool>)
      modifies this
      ensures (State(), r) == PgPutInitial(old(State()), token)
    {
      if token.familyId in families { return Answered(false); }
      var before := families;
      families := families[token.familyId := Family(token.owner, token.createdAt, None, None)];
      if token.tokenHash in tokens || GenerationTaken(State(), token.familyId, token.generation) || token.generation < 0 {
        families := before;  // the thrown error rolls the transaction back
        return Threw;
      }
      tokens := tokens[token.tokenHash := Initial(token)];
      return Answered(true);
    }

    method Rotate(currentHash: string, nextHash: string, now: int) returns (r: Outcome<Rotation>)
      modifies this
      ensures (State(), r) == PgRotate(old(State()), currentHash, nextHash, now)
    {
      var locked := Find(State(), currentHash);
      if locked.None? || locked.value.1.revokedAt.Some? || locked.value.0.expiresAt <= now { return Answered(Invalid); }
      var current := locked.value.0;
      if current.consumedAt.Some? {
        families := FamilyReplayed(families, current.family, now);
        tokens := TokensConsumed(tokens, current.family, now);
        return Answered(Replayed);
      }
      if nextHash in tokens { return Answered(Invalid); }
      var before := tokens;
      tokens := tokens[currentHash := current.(consumedAt := Some(now), successor := Some(nextHash))];
      RewriteKeepsGenerations(old(State()), currentHash, tokens[currentHash], current.family, current.generation + 1);
      if GenerationTaken(State(), current.family, current.generation + 1) || current.generation + 1 < 0 {
        tokens := before;
        return Threw;
      }
      tokens := tokens[nextHash := Next(current, now)];
      return Answered(Rotated(FromRow(nextHash, tokens[nextHash])));
    }

    method Revoke(tokenHash: string, clientId: string, now: int)
      modifies this
      ensures State() == RevokeByToken(old(State()), tokenHash, clientId, now)
    {
      if OwnFamily(State(), tokenHash, clientId) {
        var f := tokens[tokenHash].family;
        families := families[f := RevokedAt(families[f], now)];
      }
    }

    method CleanupExpired(now: int)
      modifies this
      ensures State() == Cleanup(old(State()), now)
    {
      tokens := Unexpired(tokens, now);
      families := WithTokens(families, tokens);
    }
  }
}
