/** The token store and the caching validator as objects (internal/auth/store.go,
    internal/auth/validator.go). */
module Validators {
  import opened Options
  import opened Text
  import opened Auth

  class TokenStore {
    var tokens: seq<Token>

    constructor (tokens: seq<Token>)
      ensures this.tokens == tokens
    {
      this.tokens := tokens;
    }

    method FindByPrefix(prefix: string) returns (found: Option<Token>)
      ensures found == Auth.FindByPrefix(tokens, prefix)
    {
      assert tokens[0..] == tokens;
      for i := 0 to |tokens|
        invariant Auth.FindByPrefix(tokens, prefix) == Auth.FindByPrefix(tokens[i..], prefix)
      {
        if tokens[i].prefix == prefix {
          return Some(tokens[i]);
        }
        assert tokens[i..][1..] == tokens[i + 1..];
      }
      return None;
    }

    method RevokeToken(id: string) returns (ok: bool)
      modifies this
      ensures tokens == Auth.RevokeToken(old(tokens), id)
      ensures ok <==> exists i | 0 <= i < |old(tokens)| :: old(tokens)[i].id == id
    {
      for i := 0 to |tokens|
        invariant tokens == old(tokens) && forall j | 0 <= j < i :: tokens[j].id != id
      {
        if tokens[i].id == id {
          FirstIndex(tokens, id, i);
          tokens := tokens[i := tokens[i].(revoked := true)];
          return true;
        }
      }
      FirstIndex(tokens, id, |tokens|);
      return false;
    }

    /** `writable` is false when the database file cannot be written back. */
    method TouchLastUsed(id: string, now: nat, writable: bool) returns (ok: bool)
      modifies this
      ensures ok <==> writable && exists i | 0 <= i < |old(tokens)| :: old(tokens)[i].id == id
      ensures tokens == if writable then Auth.TouchLastUsed(old(tokens), id, now) else old(tokens)
    {
      for i := 0 to |tokens|
        invariant tokens == old(tokens) && forall j | 0 <= j < i :: tokens[j].id != id
      {
        if tokens[i].id == id {
          FirstIndex(tokens, id, i);
          if writable {
            tokens := tokens[i := tokens[i].(lastUsedAt := Some(now))];
          }
          return writable;
        }
      }
      FirstIndex(tokens, id, |tokens|);
      return false;
    }
  }

  lemma FirstIndex(tokens: seq<Token>, id: string, i: nat)
    requires i <= |tokens| && (i < |tokens| ==> tokens[i].id == id)
    requires forall j | 0 <= j < i :: tokens[j].id != id
    ensures IndexOf(tokens, id) == i
  {
    var _ := IndexOf(tokens, id);
  }

  class Validator {
    const config: Config
    const store: TokenStore
    var cache: map<string, Entry>

    constructor (store: TokenStore, cacheTTL: int, touchEvery: int)
      ensures this.store == store && config == Configured(cacheTTL, touchEvery) && cache == map[]
    {
      this.store := store;
      config := Configured(cacheTTL, touchEvery);
      cache := map[];
    }

    method Cached(hash: string, now: nat) returns (found: Option<Principal>)
      modifies this
      ensures (cache, found) == Auth.Cached(old(cache), hash, now)
    {
      if hash !in cache {
        assert cache - {hash} == cache;
        return None;
      }
      var entry := cache[hash];
      if now > entry.expiresAt {
        cache := cache - {hash};
        return None;
      }
      return Some(entry.principal);
    }

    /** Some entry of the token is found by a loop over the cache, in any order. */
    method TouchIfNeeded(tokenID: string, now: nat, writable: bool)
      modifies this, store
      ensures MayTouch(config, old(cache), old(store.tokens), tokenID, now, writable, cache, store.tokens)
    {
      var todo, found, hashToUpdate := cache.Keys, false, "";
      while todo != {} && !found
        invariant todo <= cache.Keys && cache == old(cache) && store.tokens == old(store.tokens)
        invariant forall hash <- cache | hash !in todo && !found :: cache[hash].principal.tokenID != tokenID
        invariant found ==> hashToUpdate in cache && cache[hashToUpdate].principal.tokenID == tokenID
        decreases |todo|
      {
        var hash :| hash in todo;
        todo := todo - {hash};
        if cache[hash].principal.tokenID == tokenID {
          hashToUpdate, found := hash, true;
        }
      }
      if !found || now - cache[hashToUpdate].lastPersistedUsage < config.touchEvery {
        assert found ==> Touched(config, cache, hashToUpdate, now) == cache;
        return;
      }
      var entry := cache[hashToUpdate].(lastPersistedUsage := now, expiresAt := now + config.cacheTTL);
      assert entry == NewEntry(config, cache[hashToUpdate].principal, now);
      cache := cache[hashToUpdate := entry];
      assert cache == Touched(config, old(cache), hashToUpdate, now);
      var _ := store.TouchLastUsed(tokenID, now, writable);
    }

    /** What Validate does when its cache has no answer. */
    method ValidateFromStore(raw: string, prefix: string, hash: string, now: nat, writable: bool)
      returns (outcome: Outcome)
      requires PrefixFromRawToken(raw) == Some(prefix) && hash == HashToken(raw) != ""
      modifies this, store
      ensures var answer := Confirm(old(store.tokens), raw);
        if answer.Rejected? then outcome == answer && cache == old(cache) && store.tokens == old(store.tokens)
        else if !writable then
          outcome == Rejected(TouchFailed) && cache == old(cache) && store.tokens == old(store.tokens)
        else
          outcome == answer && cache == old(cache)[hash := NewEntry(config, answer.principal, now)]
          && store.tokens == Auth.TouchLastUsed(old(store.tokens), answer.principal.tokenID, now)
    {
      var found := store.FindByPrefix(prefix);
      if found.None? {
        return Rejected(InvalidToken);
      }
      if found.value.revoked {
        return Rejected(RevokedToken);
      }
      if found.value.keyHash != hash {
        return Rejected(InvalidToken);
      }
      var principal := Principal(found.value.id, found.value.userID, found.value.prefix);
      var i := FoundIsListed(store.tokens, prefix);
      assert store.tokens[i].id == found.value.id;
      var touched := store.TouchLastUsed(found.value.id, now, writable);
      if !touched {
        return Rejected(TouchFailed);
      }
      cache := cache[hash := NewEntry(config, principal, now)];
      return Accepted(principal);
    }

    /** Validate with no other validation in between and one clock reading. A hit
        answers from the cache; a miss answers what the store says, and caches it. */
    method Validate(raw: string, now: nat, writable: bool) returns (outcome: Outcome)
      modifies this, store
      ensures var hash := HashToken(raw);
        if PrefixFromRawToken(raw).None? then
          outcome == Rejected(if TrimSpace(raw) == "" then TokenRequired else InvalidToken)
          && cache == old(cache) && store.tokens == old(store.tokens)
        else if Hits(old(cache), hash, now) then
          outcome == Accepted(old(cache)[hash].principal)
          && MayTouch(config, old(cache), old(store.tokens), old(cache)[hash].principal.tokenID, now, writable,
                      cache, store.tokens)
        else
          var answer := Confirm(old(store.tokens), raw);
          if answer.Rejected? then
            outcome == answer && cache == old(cache) - {hash} && store.tokens == old(store.tokens)
          else if !writable then
            outcome == Rejected(TouchFailed) && cache == old(cache) - {hash} && store.tokens == old(store.tokens)
          else
            outcome == answer && cache == old(cache)[hash := NewEntry(config, answer.principal, now)]
            && store.tokens == Auth.TouchLastUsed(old(store.tokens), answer.principal.tokenID, now)
    {
      TrimSpaceTrims(raw);
      var token := TrimSpace(raw);
      TrimSpaceTrims(token);
      if token == "" {
        return Rejected(TokenRequired);
      }
      var prefix := PrefixFromRawToken(token);
      if prefix.None? {
        return Rejected(InvalidToken);
      }
      var hash := HashToken(token);
      var hit := Cached(hash, now);
      if hit.Some? {
        TouchIfNeeded(hit.value.tokenID, now, writable);
        return Accepted(hit.value);
      }
      outcome := ValidateFromStore(token, prefix.value, hash, now, writable);
      assert Confirm(old(store.tokens), token) == Confirm(old(store.tokens), raw);
    }
  }
}
