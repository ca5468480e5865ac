/** Token records and the cache of validated tokens (internal/auth/token.go,
    internal/auth/store.go, internal/auth/validator.go). A token's hash is
    modelled by the trimmed token itself, that is, as free of collisions. */
module Auth {
  import opened Options
  import opened Text

  datatype Token = Token(
    id: string, userID: string, keyHash: string, prefix: string, revoked: bool, lastUsedAt: Option<nat>)
  datatype Principal = Principal(tokenID: string, userID: string, prefix: string)
  datatype Entry = Entry(principal: Principal, expiresAt: nat, lastPersistedUsage: nat)
  datatype Config = Config(cacheTTL: nat, touchEvery: nat)

  const SECOND: nat := 1_000_000_000

  /** The defaulting in NewValidator. */
  function Configured(cacheTTL: int, touchEvery: int): (c: Config)
    ensures c.cacheTTL > 0 && c.touchEvery > 0
    ensures (cacheTTL > 0 ==> c.cacheTTL == cacheTTL) && (touchEvery > 0 ==> c.touchEvery == touchEvery)
  {
    Config(if cacheTTL <= 0 then 30 * SECOND else cacheTTL,
           if touchEvery <= 0 then 60 * SECOND else touchEvery)
  }

  function HashToken(raw: string): string {
    TrimSpace(raw)
  }

  // The prefix of a raw token.

  const TOKEN_PREFIX := "bin_live_"

  /** The last index of an underscore, or the length. */
  function LastUnderscore(s: string): (i: nat)
    ensures i <= |s|
    ensures i < |s| ==> s[i] == '_' && forall j | i < j < |s| :: s[j] != '_'
    ensures i == |s| ==> '_' !in s
  {
    if s == "" then 0
    else if s[|s| - 1] == '_' then |s| - 1
    else
      var i := LastUnderscore(s[..|s| - 1]);
      if i == |s| - 1 then |s| else i
  }

  function PrefixFromRawToken(raw: string): Option<string> {
    var token := TrimSpace(raw);
    var i := LastUnderscore(token);
    if i == 0 || i >= |token| - 1 then None
    else if TOKEN_PREFIX <= token[..i] then Some(token[..i])
    else None
  }

  // The token list.

  function FindByPrefix(tokens: seq<Token>, prefix: string): Option<Token> {
    if tokens == [] then None
    else if tokens[0].prefix == prefix then Some(tokens[0])
    else FindByPrefix(tokens[1..], prefix)
  }

  /** The index of the first token with the id, or the length. */
  function IndexOf(tokens: seq<Token>, id: string): (i: nat)
    ensures i <= |tokens|
    ensures i < |tokens| ==> tokens[i].id == id
    ensures forall j | 0 <= j < i :: tokens[j].id != id
  {
    if tokens == [] || tokens[0].id == id then 0 else 1 + IndexOf(tokens[1..], id)
  }

  function RevokeToken(tokens: seq<Token>, id: string): seq<Token> {
    var i := IndexOf(tokens, id);
    if i < |tokens| then tokens[i := tokens[i].(revoked := true)] else tokens
  }

  function TouchLastUsed(tokens: seq<Token>, id: string, now: nat): seq<Token> {
    var i := IndexOf(tokens, id);
    if i < |tokens| then tokens[i := tokens[i].(lastUsedAt := Some(now))] else tokens
  }

  datatype Failure = TokenRequired | InvalidToken | RevokedToken | TouchFailed
  datatype Outcome = Accepted(principal: Principal) | Rejected(failure: Failure)

  /** The store lookup of Validate on a cache miss. */
  function Confirm(tokens: seq<Token>, raw: string): Outcome {
    var prefix := PrefixFromRawToken(raw);
    if TrimSpace(raw) == "" then Rejected(TokenRequired)
    else if prefix.None? then Rejected(InvalidToken)
    else
      var found := FindByPrefix(tokens, prefix.value);
      if found.None? then Rejected(InvalidToken)
      else if found.value.revoked then Rejected(RevokedToken)
      else if found.value.keyHash != HashToken(raw) then Rejected(InvalidToken)
      else Accepted(Principal(found.value.id, found.value.userID, found.value.prefix))
  }

  // The cache sections.

  predicate Hits(cache: map<string, Entry>, hash: string, now: nat) {
    hash in cache && now <= cache[hash].expiresAt
  }

  /** cached: an expired entry is dropped. */
  function Cached(cache: map<string, Entry>, hash: string, now: nat): (map<string, Entry>, Option<Principal>) {
    if Hits(cache, hash, now) then (cache, Some(cache[hash].principal)) else (cache - {hash}, None)
  }

  function NewEntry(c: Config, principal: Principal, now: nat): Entry {
    Entry(principal, now + c.cacheTTL, now)
  }

  /** The usage of the entry was recorded one touch interval ago or earlier. */
  predicate Due(c: Config, entry: Entry, now: nat) {
    now - entry.lastPersistedUsage >= c.touchEvery
  }

  /** The locked part of touchIfNeeded, on the entry its loop finds. */
  function Touched(c: Config, cache: map<string, Entry>, hash: string, now: nat): map<string, Entry>
    requires hash in cache
  {
    if Due(c, cache[hash], now) then cache[hash := NewEntry(c, cache[hash].principal, now)] else cache
  }

  /** The token list after touchIfNeeded; a failed write is only logged. */
  function Recorded(c: Config, tokens: seq<Token>, entry: Entry, now: nat, saved: bool): seq<Token> {
    if Due(c, entry, now) && saved then TouchLastUsed(tokens, entry.principal.tokenID, now) else tokens
  }

  ghost predicate HasEntry(cache: map<string, Entry>, tokenID: string) {
    exists hash <- cache :: cache[hash].principal.tokenID == tokenID
  }

  /** What touchIfNeeded may leave of cache and token list: its loop may find any
      entry of the token. */
  ghost predicate MayTouch(
    c: Config, cache: map<string, Entry>, tokens: seq<Token>, tokenID: string, now: nat, saved: bool,
    cache': map<string, Entry>, tokens': seq<Token>)
  {
    if HasEntry(cache, tokenID) then
      exists hash <- cache :: cache[hash].principal.tokenID == tokenID
        && cache' == Touched(c, cache, hash, now) && tokens' == Recorded(c, tokens, cache[hash], now, saved)
    else cache' == cache && tokens' == tokens
  }

  lemma {:induction false} FoundIsListed(tokens: seq<Token>, prefix: string) returns (i: nat)
    requires FindByPrefix(tokens, prefix).Some?
    ensures i < |tokens| && tokens[i] == FindByPrefix(tokens, prefix).value && tokens[i].prefix == prefix
    ensures forall j | 0 <= j < i :: tokens[j].prefix != prefix
    decreases |tokens|
  {
    if tokens[0].prefix == prefix {
      i := 0;
    } else {
      var k := FoundIsListed(tokens[1..], prefix);
      i := k + 1;
    }
  }

  /** The token is the first listed one with the prefix. */
  predicate IsFirst(tokens: seq<Token>, prefix: string, i: nat) {
    i < |tokens| && tokens[i].prefix == prefix && forall j | 0 <= j < i :: tokens[j].prefix != prefix
  }

  /** Nothing is found exactly when no token has the prefix, and else the first. */
  lemma {:induction false} FindByPrefixExactly(tokens: seq<Token>, prefix: string)
    ensures FindByPrefix(tokens, prefix).None? <==> forall i | 0 <= i < |tokens| :: tokens[i].prefix != prefix
    ensures forall i: nat | IsFirst(tokens, prefix, i) :: FindByPrefix(tokens, prefix) == Some(tokens[i])
    decreases |tokens|
  {
    if tokens != [] {
      var rest := tokens[1..];
      FindByPrefixExactly(rest, prefix);
      assert forall i | 0 <= i < |rest| :: rest[i] == tokens[i + 1];
      forall i: nat | IsFirst(tokens, prefix, i) ensures FindByPrefix(tokens, prefix) == Some(tokens[i]) {
        if i > 0 {
          assert IsFirst(rest, prefix, i - 1);
        }
      }
    }
  }

  /** The raw token, trimmed, is the prefix, an underscore and a secret without one. */
  ghost predicate IsPrefixOf(raw: string, prefix: string) {
    TOKEN_PREFIX <= prefix && exists secret: string :: Joins(raw, prefix, secret)
  }

  predicate Joins(raw: string, prefix: string, secret: string) {
    TrimSpace(raw) == prefix + "_" + secret && secret != "" && '_' !in secret
  }

  lemma LastUnderscoreIs(s: string, i: nat)
    requires i < |s| && s[i] == '_' && forall j | i < j < |s| :: s[j] != '_'
    ensures LastUnderscore(s) == i
  {
    var k := LastUnderscore(s);
    assert s[i] in s;
  }

  /** The prefix of a raw token is what stands before its last underscore, if that
      begins as the engine's tokens do and something follows. */
  lemma PrefixExactly(raw: string, prefix: string)
    ensures PrefixFromRawToken(raw) == Some(prefix) <==> IsPrefixOf(raw, prefix)
  {
    var token := TrimSpace(raw);
    if PrefixFromRawToken(raw) == Some(prefix) {
      var i := LastUnderscore(token);
      assert token == prefix + "_" + token[i + 1..];
      assert Joins(raw, prefix, token[i + 1..]);
    }
    if IsPrefixOf(raw, prefix) {
      var secret :| Joins(raw, prefix, secret);
      assert forall j | |prefix| < j < |token| :: token[j] == secret[j - |prefix| - 1];
      LastUnderscoreIs(token, |prefix|);
      assert token[..|prefix|] == prefix;
    }
  }

  /** A raw token is accepted from the store exactly when the first token listed with
      its prefix has its hash and is not revoked; that token is its principal. */
  lemma ConfirmExactly(tokens: seq<Token>, raw: string, prefix: string, i: nat)
    requires IsPrefixOf(raw, prefix) && IsFirst(tokens, prefix, i)
    ensures Confirm(tokens, raw) ==
            if tokens[i].revoked then Rejected(RevokedToken)
            else if tokens[i].keyHash == TrimSpace(raw)
            then Accepted(Principal(tokens[i].id, tokens[i].userID, prefix)) else Rejected(InvalidToken)
  {
    PrefixExactly(raw, prefix);
    FindByPrefixExactly(tokens, prefix);
    var secret :| Joins(raw, prefix, secret);
    assert TrimSpace(raw) != "";
  }
}
