/** How long a revoked token may still be accepted from the cache, over every run of
    interleaved validations (internal/auth/validator.go). */
module AuthStaleness {
  import opened Options
  import opened Text
  import opened Auth

  /** A validation that found its token in the store, or hit the cache, and has not
      reached its next lock yet. */
  datatype Insertion = Insertion(hash: string, principal: Principal, confirmedAt: nat)
  datatype Usage = Usage(tokenID: string, hitAt: nat)

  /** `confirmed` and `revokedAt` record, for cached hashes and revoked tokens, when
      the store last showed the token unrevoked and when it was revoked. */
  datatype World = World(
    config: Config,
    lag: nat,
    clock: nat,
    tokens: seq<Token>,
    cache: map<string, Entry>,
    insertions: set<Insertion>,
    usages: set<Usage>,
    confirmed: map<string, nat>,
    revokedAt: map<string, nat>)

  /** The critical sections; `lag` bounds the time between two of one validation. A
      touch may fail to be saved. */
  datatype Step =
    | Tick(elapsed: nat)
    | Create(token: Token)
    | Revoke(id: string)
    | LookUp(raw: string)
    | Find(raw: string)
    | Insert(insertion: Insertion, stamp: nat)
    | Touch(usage: Usage, hash: string, saved: bool)

  predicate Enabled(w: World, step: Step) {
    match step
    case Create(token) => !token.revoked && token.id !in w.revokedAt && IndexOf(w.tokens, token.id) == |w.tokens|
    case Find(raw) => Confirm(w.tokens, raw).Accepted?
    case Insert(insertion, stamp) =>
      insertion in w.insertions && insertion.confirmedAt <= stamp <= w.clock <= insertion.confirmedAt + w.lag
    case Touch(usage, hash, _) =>
      && usage in w.usages && w.clock <= usage.hitAt + w.lag
      && hash in w.cache && w.cache[hash].principal.tokenID == usage.tokenID
    case _ => true
  }

  function Apply(w: World, step: Step): World
    requires Enabled(w, step)
  {
    match step
    case Tick(elapsed) => w.(clock := w.clock + elapsed)
    case Create(token) => w.(tokens := w.tokens + [token])
    case Revoke(id) =>
      w.(tokens := RevokeToken(w.tokens, id),
         revokedAt := if id in w.revokedAt || IndexOf(w.tokens, id) == |w.tokens| then w.revokedAt
                      else w.revokedAt[id := w.clock])
    case LookUp(raw) =>
      var hash := HashToken(raw);
      var (cache, found) := Cached(w.cache, hash, w.clock);
      w.(cache := cache, usages := w.usages + if found.Some? then {Usage(found.value.tokenID, w.clock)} else {})
    case Find(raw) =>
      w.(insertions := w.insertions + {Insertion(HashToken(raw), Confirm(w.tokens, raw).principal, w.clock)})
    case Insert(insertion, stamp) =>
      w.(cache := w.cache[insertion.hash := NewEntry(w.config, insertion.principal, stamp)],
         tokens := TouchLastUsed(w.tokens, insertion.principal.tokenID, stamp),
         confirmed := w.confirmed[insertion.hash := insertion.confirmedAt],
         insertions := w.insertions - {insertion})
    case Touch(usage, hash, saved) =>
      w.(cache := Touched(w.config, w.cache, hash, w.clock),
         tokens := Recorded(w.config, w.tokens, w.cache[hash], w.clock, saved),
         usages := w.usages - {usage})
  }

  predicate Feasible(w: World, steps: seq<Step>)
    decreases |steps|
  {
    steps == [] || (Enabled(w, steps[0]) && Feasible(Apply(w, steps[0]), steps[1..]))
  }

  function Run(w: World, steps: seq<Step>): World
    requires Feasible(w, steps)
    decreases |steps|
  {
    if steps == [] then w else Run(Apply(w, steps[0]), steps[1..])
  }

  function Init(config: Config, lag: nat): World {
    World(config, lag, 0, [], map[], {}, {}, map[], map[])
  }

  // Invariant.

  predicate Owns(t: Token, hash: string, p: Principal) {
    t.id == p.tokenID && t.keyHash == hash
  }

  ghost predicate Listed(tokens: seq<Token>, hash: string, p: Principal) {
    exists i :: 0 <= i < |tokens| && Owns(tokens[i], hash, p)
  }

  predicate Timely(config: Config, lag: nat, clock: nat, e: Entry, confirmedAt: nat) {
    && e.expiresAt == e.lastPersistedUsage + config.cacheTTL
    && confirmedAt <= e.lastPersistedUsage <= clock
    && e.lastPersistedUsage <= confirmedAt + lag
  }

  /** Confirmed before any revocation. */
  predicate Before(confirmedAt: nat, revokedAt: map<string, nat>, p: Principal) {
    p.tokenID in revokedAt ==> confirmedAt <= revokedAt[p.tokenID]
  }

  ghost predicate EntriesOk(w: World) {
    forall hash <- w.cache ::
      && hash in w.confirmed
      && Timely(w.config, w.lag, w.clock, w.cache[hash], w.confirmed[hash])
      && Listed(w.tokens, hash, w.cache[hash].principal)
      && Before(w.confirmed[hash], w.revokedAt, w.cache[hash].principal)
  }

  ghost predicate InsertionsOk(w: World) {
    forall x <- w.insertions ::
      && x.confirmedAt <= w.clock && Listed(w.tokens, x.hash, x.principal)
      && Before(x.confirmedAt, w.revokedAt, x.principal)
  }

  /** No entry is older than a hit that is still to be recorded allows. */
  ghost predicate UsagesOk(w: World) {
    forall u <- w.usages ::
      u.hitAt <= w.clock &&
      forall hash <- w.cache | w.cache[hash].principal.tokenID == u.tokenID ::
        u.hitAt <= w.cache[hash].lastPersistedUsage + w.config.cacheTTL
  }

  ghost predicate TokensOk(tokens: seq<Token>, revokedAt: map<string, nat>, clock: nat) {
    && (forall i, j | 0 <= i < j < |tokens| :: tokens[i].id != tokens[j].id)
    && (forall i | 0 <= i < |tokens| :: tokens[i].revoked <==> tokens[i].id in revokedAt)
    && (forall id <- revokedAt :: revokedAt[id] <= clock)
  }

  ghost predicate Inv(w: World) {
    TokensOk(w.tokens, w.revokedAt, w.clock) && EntriesOk(w) && InsertionsOk(w) && UsagesOk(w)
  }

  /** Usage is recorded less often than entries expire, allowing for the lag. */
  predicate Sparse(config: Config, lag: nat) {
    config.touchEvery > config.cacheTTL + lag
  }

  /** What changes of the token list leave alone. */
  ghost predicate Continues(tokens: seq<Token>, tokens': seq<Token>) {
    |tokens| <= |tokens'| &&
    forall i | 0 <= i < |tokens| :: tokens'[i].id == tokens[i].id && tokens'[i].keyHash == tokens[i].keyHash
  }

  lemma ListedStays(tokens: seq<Token>, tokens': seq<Token>, hash: string, p: Principal)
    requires Continues(tokens, tokens') && Listed(tokens, hash, p)
    ensures Listed(tokens', hash, p)
  {
    var i :| 0 <= i < |tokens| && Owns(tokens[i], hash, p);
    assert Owns(tokens'[i], hash, p);
  }

  /** The hash is the token's, so a token id has one entry. */
  lemma OneHash(w: World, a: string, b: string)
    requires Inv(w) && a in w.cache && b in w.cache
    requires w.cache[a].principal.tokenID == w.cache[b].principal.tokenID
    ensures a == b
  {
    var i :| 0 <= i < |w.tokens| && Owns(w.tokens[i], a, w.cache[a].principal);
    var j :| 0 <= j < |w.tokens| && Owns(w.tokens[j], b, w.cache[b].principal);
    assert i == j;
  }

  lemma TokensChange(w: World, tokens: seq<Token>)
    requires Inv(w) && Continues(w.tokens, tokens) && TokensOk(tokens, w.revokedAt, w.clock)
    ensures Inv(w.(tokens := tokens))
  {
    ListedChange(w, tokens);
  }

  lemma TouchTokens(w: World, id: string, now: nat)
    requires Inv(w)
    ensures Inv(w.(tokens := TouchLastUsed(w.tokens, id, now)))
  {
    TokensChange(w, TouchLastUsed(w.tokens, id, now));
  }

  lemma CreateKeeps(w: World, token: Token)
    requires Inv(w) && Enabled(w, Create(token))
    ensures Inv(Apply(w, Create(token)))
  {
    TokensChange(w, w.tokens + [token]);
  }

  /** Whatever was confirmed was confirmed before a revocation happening now. */
  lemma RevocationRecorded(w: World, revokedAt: map<string, nat>)
    requires EntriesOk(w) && InsertionsOk(w)
    requires forall id <- revokedAt ::
               revokedAt[id] == if id in w.revokedAt then w.revokedAt[id] else w.clock
    ensures EntriesOk(w.(revokedAt := revokedAt)) && InsertionsOk(w.(revokedAt := revokedAt))
  {
  }

  lemma RevokeKeeps(w: World, id: string)
    requires Inv(w)
    ensures Inv(Apply(w, Revoke(id)))
  {
    var w' := Apply(w, Revoke(id));
    RevocationRecorded(w, w'.revokedAt);
    var w1 := w.(revokedAt := w'.revokedAt);
    ListedChange(w1, w'.tokens);
    assert TokensOk(w'.tokens, w'.revokedAt, w.clock);
  }

  lemma ListedChange(w: World, tokens: seq<Token>)
    requires EntriesOk(w) && InsertionsOk(w) && Continues(w.tokens, tokens)
    ensures EntriesOk(w.(tokens := tokens)) && InsertionsOk(w.(tokens := tokens))
  {
    forall hash | hash in w.cache ensures Listed(tokens, hash, w.cache[hash].principal) {
      ListedStays(w.tokens, tokens, hash, w.cache[hash].principal);
    }
    forall x | x in w.insertions ensures Listed(tokens, x.hash, x.principal) {
      ListedStays(w.tokens, tokens, x.hash, x.principal);
    }
  }

  lemma LookUpKeeps(w: World, raw: string)
    requires Inv(w)
    ensures Inv(Apply(w, LookUp(raw)))
  {
    var hash := HashToken(raw);
    var w' := Apply(w, LookUp(raw));
    forall u | u in w'.usages
      ensures u.hitAt <= w'.clock
      ensures forall h <- w'.cache | w'.cache[h].principal.tokenID == u.tokenID ::
                u.hitAt <= w'.cache[h].lastPersistedUsage + w.config.cacheTTL
    {
      if u !in w.usages {
        forall h | h in w'.cache && w'.cache[h].principal.tokenID == u.tokenID
          ensures u.hitAt <= w'.cache[h].lastPersistedUsage + w.config.cacheTTL
        {
          OneHash(w, h, hash);
        }
      }
    }
  }

  lemma FindKeeps(w: World, raw: string)
    requires Inv(w) && Enabled(w, Find(raw))
    ensures Inv(Apply(w, Find(raw)))
  {
    var prefix := PrefixFromRawToken(raw).value;
    var i := FoundIsListed(w.tokens, prefix);
    assert Owns(w.tokens[i], HashToken(raw), Confirm(w.tokens, raw).principal);
  }

  lemma InsertKeeps(w: World, x: Insertion, stamp: nat)
    requires Inv(w) && Enabled(w, Insert(x, stamp)) && w.lag <= w.config.cacheTTL
    ensures Inv(Apply(w, Insert(x, stamp)))
  {
    TouchTokens(w, x.principal.tokenID, stamp);
    var w1 := w.(tokens := TouchLastUsed(w.tokens, x.principal.tokenID, stamp));
    assert Timely(w.config, w.lag, w.clock, NewEntry(w.config, x.principal, stamp), x.confirmedAt);
    assert Inv(w1) && x in w1.insertions;
  }

  /** Under sparse touching no hit ever extends an entry. */
  lemma TouchChangesNothing(w: World, usage: Usage, hash: string, saved: bool)
    requires Inv(w) && Enabled(w, Touch(usage, hash, saved)) && Sparse(w.config, w.lag)
    ensures Touched(w.config, w.cache, hash, w.clock) == w.cache
    ensures Recorded(w.config, w.tokens, w.cache[hash], w.clock, saved) == w.tokens
  {
  }

  lemma TouchKeeps(w: World, usage: Usage, hash: string, saved: bool)
    requires Inv(w) && Enabled(w, Touch(usage, hash, saved)) && Sparse(w.config, w.lag)
    ensures Inv(Apply(w, Touch(usage, hash, saved)))
  {
    TouchChangesNothing(w, usage, hash, saved);
  }

  lemma InvStep(w: World, step: Step)
    requires Inv(w) && Enabled(w, step) && Sparse(w.config, w.lag) && w.lag <= w.config.cacheTTL
    ensures Inv(Apply(w, step)) && Apply(w, step).config == w.config && Apply(w, step).lag == w.lag
  {
    match step {
      case Tick(elapsed) =>
      case Create(token) => CreateKeeps(w, token);
      case Revoke(id) => RevokeKeeps(w, id);
      case LookUp(raw) => LookUpKeeps(w, raw);
      case Find(raw) => FindKeeps(w, raw);
      case Insert(insertion, stamp) => InsertKeeps(w, insertion, stamp);
      case Touch(usage, hash, saved) => TouchKeeps(w, usage, hash, saved);
    }
  }

  lemma {:induction false} InvRun(w: World, steps: seq<Step>)
    requires Inv(w) && Feasible(w, steps) && Sparse(w.config, w.lag) && w.lag <= w.config.cacheTTL
    ensures Inv(Run(w, steps)) && Run(w, steps).config == w.config && Run(w, steps).lag == w.lag
    decreases |steps|
  {
    if steps != [] {
      InvStep(w, steps[0]);
      InvRun(Apply(w, steps[0]), steps[1..]);
    }
  }

  // What holds for every pair of intervals.

  /** An entry expires one lifetime after its last recorded use, which lies in the past. */
  ghost predicate OnTime(w: World) {
    forall hash <- w.cache ::
      && w.cache[hash].expiresAt == w.cache[hash].lastPersistedUsage + w.config.cacheTTL
      && w.cache[hash].lastPersistedUsage <= w.clock
  }

  lemma {:induction false} ExpiryIsOnTime(w: World, steps: seq<Step>)
    requires OnTime(w) && Feasible(w, steps)
    ensures OnTime(Run(w, steps)) && Run(w, steps).config == w.config
    decreases |steps|
  {
    if steps != [] {
      ExpiryIsOnTime(Apply(w, steps[0]), steps[1..]);
    }
  }

  /** Whatever the intervals, the cache accepts a token exactly while it holds an
      entry whose last use, confirmed by the store or recorded by a touch, is at most
      one lifetime ago. */
  lemma HitsAreRecent(config: Config, lag: nat, steps: seq<Step>, raw: string)
    requires Feasible(Init(config, lag), steps)
    ensures var w := Run(Init(config, lag), steps);
      Cached(w.cache, HashToken(raw), w.clock).1.Some? <==>
        TrimSpace(raw) in w.cache && w.clock <= w.cache[TrimSpace(raw)].lastPersistedUsage + config.cacheTTL
  {
    ExpiryIsOnTime(Init(config, lag), steps);
  }

  /** The token of the entry, and when it was last used. */
  predicate Stamps(t: Token, hash: string, entry: Entry) {
    Owns(t, hash, entry.principal) && t.lastUsedAt == Some(entry.lastPersistedUsage)
  }

  ghost predicate Stamped(tokens: seq<Token>, hash: string, entry: Entry) {
    exists i :: 0 <= i < |tokens| && Stamps(tokens[i], hash, entry)
  }

  ghost predicate Persisted(w: World) {
    && (forall i, j | 0 <= i < j < |w.tokens| :: w.tokens[i].id != w.tokens[j].id)
    && (forall hash <- w.cache :: Stamped(w.tokens, hash, w.cache[hash]))
    && (forall x <- w.insertions :: Listed(w.tokens, x.hash, x.principal))
  }

  /** Of the tokens, only the one touched changes, and only in its last use. */
  lemma OneTouched(tokens: seq<Token>, id: string, now: nat)
    requires forall i, j | 0 <= i < j < |tokens| :: tokens[i].id != tokens[j].id
    ensures var touched := TouchLastUsed(tokens, id, now);
      |touched| == |tokens| && forall i | 0 <= i < |tokens| ::
        touched[i] == if tokens[i].id == id then tokens[i].(lastUsedAt := Some(now)) else tokens[i]
  {
  }

  lemma OneRevoked(tokens: seq<Token>, id: string)
    requires forall i, j | 0 <= i < j < |tokens| :: tokens[i].id != tokens[j].id
    ensures var revoked := RevokeToken(tokens, id);
      |revoked| == |tokens| && forall i | 0 <= i < |tokens| ::
        revoked[i] == if tokens[i].id == id then tokens[i].(revoked := true) else tokens[i]
  {
  }

  lemma StampStays(tokens: seq<Token>, tokens': seq<Token>, hash: string, entry: Entry)
    requires Stamped(tokens, hash, entry) && |tokens| <= |tokens'|
    requires forall i | 0 <= i < |tokens| && Stamps(tokens[i], hash, entry) :: Stamps(tokens'[i], hash, entry)
    ensures Stamped(tokens', hash, entry)
  {
    var i :| 0 <= i < |tokens| && Stamps(tokens[i], hash, entry);
    assert Stamps(tokens'[i], hash, entry);
  }

  /** A token that is used now is stamped with its entry, and no other is touched. */
  lemma UseStamps(w: World, hash: string, principal: Principal, now: nat)
    requires Persisted(w) && Listed(w.tokens, hash, principal)
    ensures Persisted(w.(cache := w.cache[hash := NewEntry(w.config, principal, now)],
                         tokens := TouchLastUsed(w.tokens, principal.tokenID, now)))
  {
    var tokens, entry := TouchLastUsed(w.tokens, principal.tokenID, now), NewEntry(w.config, principal, now);
    OneTouched(w.tokens, principal.tokenID, now);
    var k :| 0 <= k < |w.tokens| && Owns(w.tokens[k], hash, principal);
    assert Stamps(tokens[k], hash, entry);
    forall h | h in w.cache && h != hash ensures Stamped(tokens, h, w.cache[h]) {
      var i :| 0 <= i < |w.tokens| && Stamps(w.tokens[i], h, w.cache[h]);
      assert i != k;
      assert Stamps(tokens[i], h, w.cache[h]);
    }
    forall x | x in w.insertions ensures Listed(tokens, x.hash, x.principal) {
      ListedStays(w.tokens, tokens, x.hash, x.principal);
    }
  }

  lemma TokensPersist(w: World, tokens: seq<Token>)
    requires Persisted(w) && |w.tokens| <= |tokens|
    requires forall i, j | 0 <= i < j < |tokens| :: tokens[i].id != tokens[j].id
    requires forall i | 0 <= i < |w.tokens| :: tokens[i] == w.tokens[i] || tokens[i] == w.tokens[i].(revoked := true)
    ensures Persisted(w.(tokens := tokens))
  {
    forall h | h in w.cache ensures Stamped(tokens, h, w.cache[h]) {
      StampStays(w.tokens, tokens, h, w.cache[h]);
    }
    forall x | x in w.insertions ensures Listed(tokens, x.hash, x.principal) {
      ListedStays(w.tokens, tokens, x.hash, x.principal);
    }
  }

  lemma FindPersists(w: World, raw: string)
    requires Persisted(w) && Enabled(w, Find(raw))
    ensures Persisted(Apply(w, Find(raw)))
  {
    var i := FoundIsListed(w.tokens, PrefixFromRawToken(raw).value);
    assert Owns(w.tokens[i], HashToken(raw), Confirm(w.tokens, raw).principal);
  }

  lemma TouchPersists(w: World, usage: Usage, hash: string)
    requires Persisted(w) && Enabled(w, Touch(usage, hash, true))
    ensures Persisted(Apply(w, Touch(usage, hash, true)))
  {
    if Due(w.config, w.cache[hash], w.clock) {
      var i :| 0 <= i < |w.tokens| && Stamps(w.tokens[i], hash, w.cache[hash]);
      assert Owns(w.tokens[i], hash, w.cache[hash].principal);
      UseStamps(w, hash, w.cache[hash].principal, w.clock);
    }
  }

  lemma PersistStep(w: World, step: Step)
    requires Persisted(w) && Enabled(w, step) && (step.Touch? ==> step.saved)
    ensures Persisted(Apply(w, step))
  {
    match step {
      case Tick(elapsed) =>
      case Create(token) =>
        var _ := IndexOf(w.tokens, token.id);
        TokensPersist(w, w.tokens + [token]);
      case Revoke(id) =>
        OneRevoked(w.tokens, id);
        TokensPersist(w, RevokeToken(w.tokens, id));
      case LookUp(raw) =>
      case Find(raw) => FindPersists(w, raw);
      case Insert(insertion, stamp) => UseStamps(w, insertion.hash, insertion.principal, stamp);
      case Touch(usage, hash, _) => TouchPersists(w, usage, hash);
    }
  }

  lemma {:induction false} PersistRun(w: World, steps: seq<Step>)
    requires Persisted(w) && Feasible(w, steps) && forall i | 0 <= i < |steps| && steps[i].Touch? :: steps[i].saved
    ensures Persisted(Run(w, steps))
    decreases |steps|
  {
    if steps != [] {
      PersistStep(w, steps[0]);
      PersistRun(Apply(w, steps[0]), steps[1..]);
    }
  }

  /** Whatever the intervals and however validations interleave: while touches are
      saved, the store's last use of a cached token is the one its entry was last
      renewed with, and the entry is that token's. */
  lemma UsageIsPersisted(config: Config, lag: nat, steps: seq<Step>, hash: string)
    requires Feasible(Init(config, lag), steps) && forall i | 0 <= i < |steps| && steps[i].Touch? :: steps[i].saved
    requires hash in Run(Init(config, lag), steps).cache
    ensures var w := Run(Init(config, lag), steps);
      && Stamped(w.tokens, hash, w.cache[hash])
      && w.cache[hash].expiresAt == w.cache[hash].lastPersistedUsage + config.cacheTTL
  {
    PersistRun(Init(config, lag), steps);
    ExpiryIsOnTime(Init(config, lag), steps);
  }

  // The bound.

  /** The cache accepts the raw token now although it was revoked more than `bound` ago. */
  predicate AcceptsStale(w: World, raw: string, bound: nat) {
    var hash := HashToken(raw);
    Hits(w.cache, hash, w.clock) &&
    var id := w.cache[hash].principal.tokenID;
    id in w.revokedAt && w.clock > w.revokedAt[id] + bound
  }

  ghost predicate TakesOn(config: Config, lag: nat, bound: nat, steps: seq<Step>, raw: string) {
    Feasible(Init(config, lag), steps) ==> !AcceptsStale(Run(Init(config, lag), steps), raw, bound)
  }

  ghost predicate RevocationTakes(config: Config, lag: nat, bound: nat) {
    forall steps: seq<Step>, raw: string :: TakesOn(config, lag, bound, steps, raw)
  }

  lemma FreshHit(w: World, raw: string)
    requires Inv(w)
    ensures !AcceptsStale(w, raw, w.config.cacheTTL + w.lag)
  {
  }

  /** Bounded staleness, with sparse touching. */
  lemma SparseBounds(config: Config, lag: nat)
    requires Sparse(config, lag) && lag <= config.cacheTTL
    ensures RevocationTakes(config, lag, config.cacheTTL + lag)
  {
    var bound := config.cacheTTL + lag;
    forall steps: seq<Step>, raw: string ensures TakesOn(config, lag, bound, steps, raw) {
      SparseTakesOn(config, lag, bound, steps, raw);
    }
  }

  lemma SparseTakesOn(config: Config, lag: nat, bound: nat, steps: seq<Step>, raw: string)
    requires Sparse(config, lag) && lag <= config.cacheTTL && bound == config.cacheTTL + lag
    ensures TakesOn(config, lag, bound, steps, raw)
  {
    if Feasible(Init(config, lag), steps) {
      InvRun(Init(config, lag), steps);
      FreshHit(Run(Init(config, lag), steps), raw);
    }
  }

  // Without it there is no bound at all.

  const RAW := "bin_live_a_b"
  const TOKEN := Token("t", "u", "bin_live_a_b", "bin_live_a", false, None)
  const OWNER := Principal("t", "u", "bin_live_a")

  lemma RawIsValid()
    ensures TrimSpace(RAW) == RAW && PrefixFromRawToken(RAW) == Some("bin_live_a")
    ensures Confirm([TOKEN], RAW) == Accepted(OWNER)
  {
    TrimSpaceTrims(RAW);
    assert RAW[10] == '_' && LastUnderscore(RAW) == 10;
    assert RAW[..10] == "bin_live_a";
    assert TOKEN_PREFIX <= "bin_live_a";
  }

  lemma {:induction false} RunAppend(w: World, a: seq<Step>, b: seq<Step>)
    requires Feasible(w, a) && Feasible(Run(w, a), b)
    ensures Feasible(w, a + b) && Run(w, a + b) == Run(Run(w, a), b)
    decreases |a|
  {
    if a == [] {
      assert a + b == b;
    } else {
      assert (a + b)[1..] == a[1..] + b;
      RunAppend(Apply(w, a[0]), a[1..], b);
    }
  }

  /** A run, one step longer. */
  lemma Then(w: World, steps: seq<Step>, step: Step) returns (longer: seq<Step>)
    requires Feasible(w, steps) && Enabled(Run(w, steps), step)
    ensures Feasible(w, longer) && Run(w, longer) == Apply(Run(w, steps), step)
  {
    var w' := Run(w, steps);
    assert Feasible(Apply(w', step), [step][1..]);
    RunAppend(w, steps, [step]);
    longer := steps + [step];
  }

  /** The token was revoked at time zero and is still cached. */
  predicate Lingers(w: World, config: Config, lag: nat, at: nat) {
    && w.config == config && w.lag == lag && w.clock == at
    && w.tokens == [TOKEN.(revoked := true, lastUsedAt := Some(at))]
    && w.cache == map[RAW := NewEntry(config, OWNER, at)]
    && w.revokedAt == map["t" := 0]
    && w.usages == {}
  }

  lemma RevokedAtOnce(config: Config, lag: nat) returns (steps: seq<Step>)
    ensures Feasible(Init(config, lag), steps)
    ensures Lingers(Run(Init(config, lag), steps), config, lag, 0)
  {
    RawIsValid();
    var w := Init(config, lag);
    steps := Then(w, [], Create(TOKEN));
    assert Run(w, steps).tokens == [TOKEN];
    steps := Then(w, steps, Find(RAW));
    steps := Then(w, steps, Insert(Insertion(RAW, OWNER, 0), 0));
    assert IndexOf(Run(w, steps).tokens, "t") == 0;
    steps := Then(w, steps, Revoke("t"));
  }

  /** The same with one hit, at `hitAt`, whose usage is not recorded yet. */
  predicate LingersUsed(w: World, config: Config, lag: nat, at: nat, hitAt: nat, now: nat) {
    && at <= hitAt <= now && w.usages == {Usage("t", hitAt)} && w.clock == now
    && Lingers(w.(usages := {}, clock := at), config, lag, at)
  }

  lemma HitLate(w: World, config: Config, lag: nat, at: nat, wait: nat) returns (steps: seq<Step>)
    requires Lingers(w, config, lag, at) && wait <= config.cacheTTL
    ensures Feasible(w, steps) && LingersUsed(Run(w, steps), config, lag, at, at + wait, at + wait)
  {
    RawIsValid();
    steps := Then(w, [], Tick(wait));
    assert Hits(Run(w, steps).cache, RAW, at + wait);
    steps := Then(w, steps, LookUp(RAW));
  }

  lemma TouchLate(w: World, config: Config, lag: nat, at: nat, hitAt: nat) returns (steps: seq<Step>)
    requires LingersUsed(w, config, lag, at, hitAt, hitAt) && hitAt <= at + config.touchEvery <= hitAt + lag
    ensures Feasible(w, steps) && Lingers(Run(w, steps), config, lag, at + config.touchEvery)
  {
    steps := Then(w, [], Tick(at + config.touchEvery - hitAt));
    assert IndexOf(Run(w, steps).tokens, "t") == 0;
    steps := Then(w, steps, Touch(Usage("t", hitAt), RAW, true));
  }

  /** One hit before expiry whose touch comes when the interval is over extends the entry. */
  lemma Extend(w: World, config: Config, lag: nat, at: nat) returns (steps: seq<Step>)
    requires Lingers(w, config, lag, at) && !Sparse(config, lag)
    ensures Feasible(w, steps) && Lingers(Run(w, steps), config, lag, at + config.touchEvery)
  {
    var wait := if config.touchEvery < config.cacheTTL then config.touchEvery else config.cacheTTL;
    var first := HitLate(w, config, lag, at, wait);
    var second := TouchLate(Run(w, first), config, lag, at, at + wait);
    RunAppend(w, first, second);
    steps := first + second;
  }

  lemma {:induction false} ExtendMany(w: World, config: Config, lag: nat, at: nat, n: nat) returns (steps: seq<Step>)
    requires Lingers(w, config, lag, at) && !Sparse(config, lag)
    ensures Feasible(w, steps) && Lingers(Run(w, steps), config, lag, at + n * config.touchEvery)
    decreases n
  {
    if n == 0 {
      steps := [];
    } else {
      var first := Extend(w, config, lag, at);
      var rest := ExtendMany(Run(w, first), config, lag, at + config.touchEvery, n - 1);
      RunAppend(w, first, rest);
      steps := first + rest;
      assert at + config.touchEvery + (n - 1) * config.touchEvery == at + n * config.touchEvery;
    }
  }

  /** When usage may be recorded as often as entries expire, a revoked token that is
      used often enough is accepted for ever: no bound holds. */
  lemma DenseNeverTakes(config: Config, lag: nat, bound: nat)
    requires config.touchEvery > 0 && !Sparse(config, lag)
    ensures !RevocationTakes(config, lag, bound)
  {
    var start := RevokedAtOnce(config, lag);
    var w := Run(Init(config, lag), start);
    var more := ExtendMany(w, config, lag, 0, bound + 1);
    RunAppend(Init(config, lag), start, more);
    var steps := start + more;
    RawIsValid();
    assert (bound + 1) * config.touchEvery >= bound + 1;
    assert AcceptsStale(Run(Init(config, lag), steps), RAW, bound);
    assert !TakesOn(config, lag, bound, steps, RAW);
  }

  /** Revocation takes effect within the cache lifetime (and the lag) exactly when
      the touch interval is longer than that; otherwise within no time at all. */
  lemma RevocationTakesExactly(cacheTTL: int, touchEvery: int, lag: nat)
    requires lag <= Configured(cacheTTL, touchEvery).cacheTTL
    ensures var c := Configured(cacheTTL, touchEvery);
      && (RevocationTakes(c, lag, c.cacheTTL + lag) <==> c.touchEvery > c.cacheTTL + lag)
      && ((exists bound: nat :: RevocationTakes(c, lag, bound)) <==> c.touchEvery > c.cacheTTL + lag)
  {
    var c := Configured(cacheTTL, touchEvery);
    if Sparse(c, lag) {
      SparseBounds(c, lag);
    } else {
      forall bound: nat ensures !RevocationTakes(c, lag, bound) {
        DenseNeverTakes(c, lag, bound);
      }
    }
  }

  /** Left to its defaults, a validator refuses a revoked token after thirty seconds
      and the lag of one validation, as long as that lag is shorter than thirty. */
  lemma DefaultsTakeInThirtySeconds(cacheTTL: int, touchEvery: int, lag: nat)
    requires cacheTTL <= 0 && touchEvery <= 0 && lag < 30_000_000_000
    ensures RevocationTakes(Configured(cacheTTL, touchEvery), lag, 30_000_000_000 + lag)
  {
    RevocationTakesExactly(cacheTTL, touchEvery, lag);
  }
}
