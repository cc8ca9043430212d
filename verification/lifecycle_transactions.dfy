// Each transaction on the installation tables leaves them sound, so any caller may
// run one after another.
module LifecycleTransactions {
  import opened Base
  import opened Consent
  import opened LifecycleTables
  import opened LifecycleRules
  import opened LifecycleSteps
  import opened LifecycleMemory

  // What every transaction may rely on at time `now`.
  ghost predicate Sound(t: Tables, now: int) {
    TablesInv(t, now) && "" !in t.intents && TokensRecorded(t)
  }

  lemma EmptyIsSound(now: int)
    ensures Sound(EMPTY, now)
  {
  }

  lemma SoundLater(t: Tables, now: int, later: int)
    requires Sound(t, now) && now <= later
    ensures Sound(t, later)
  {
    hide Kernel, RequestsMatch;
    TimePasses(t, now, later);
  }

  lemma SoundIsUnique(t: Tables, now: int)
    requires Sound(t, now)
    ensures UniqueIds(t.rows)
  {
    hide UniqueIds, RequestsMatch;
  }

  lemma SoundRoutesApart(t: Tables, now: int)
    requires Sound(t, now)
    ensures RoutesApart(t.rows)
  {
    hide RoutesApart, RequestsMatch;
  }

  lemma IntentsStayNamed(t: Tables, u: Tables, e: Effect, now: int)
    requires "" !in t.intents && Explains(e, t, u, now) && (e.Deciding? ==> e.intent != "")
    ensures "" !in u.intents
  {
    hide Agreed, CapabilityBusy, BindingBusy, RevokeTokens, Consumed, Unheard;
  }

  lemma KnownEffectKeeps(t: Tables, u: Tables, e: Effect, now: int, later: int)
    requires Sound(t, now) && now <= later && Explains(e, t, u, later) && RequestsMatch(u.requests, u.consumptions) && (e.Deciding? ==> e.intent != "")
    requires RequestsKept(t, u)
    ensures Sound(u, later)
  {
    hide Kernel, Explains, RequestsMatch, RequestsKept, TokensRecorded, TokensKept;
    EffectKeepsTokens(e, t, u, later);
    KeepingKeepsRecorded(t, u);
    TimePasses(t, now, later);
    EffectKeeps(e, t, u, later);
    IntentsStayNamed(t, u, e, later);
  }

  lemma SameRequestsKept(t: Tables, u: Tables)
    requires u.requests == t.requests
    ensures RequestsKept(t, u)
  {
  }

  lemma PrepareStaysSound(t: Tables, owner: Owner, key: string, app: Id, version: string, release: Result<Release>, newId: Id, now: int, later: int) returns (u: Tables)
    requires Sound(t, now) && now <= later && newId != "" && (release.Ok? ==> release.value.app == app && release.value.version == version)
    ensures u == Prepare(t, owner, key, app, version, release, newId, now, later).0 && Sound(u, later)
  {
    hide TablesInv, RequestsKept, Prepare, Explains, RequestsMatch;
    u := Prepare(t, owner, key, app, version, release, newId, now, later).0;
    PrepareRemembers(t, owner, key, app, version, release, newId, now, later);
    SameRequestsKept(t, u);
    var e := PrepareEffect(t, owner, key, app, version, release, newId, now, later, u);
    KnownEffectKeeps(t, u, e, now, later);
  }

  lemma DecideStaysSound(t: Tables, owner: Owner, key: string, id: Id, digest: Digest, consent: bool, current: Result<Release>, now: int, later: int) returns (u: Tables)
    requires Sound(t, now) && now <= later
    ensures u == DecideIntent(t, owner, key, id, digest, consent, current, now, later).0 && Sound(u, later)
  {
    hide TablesInv, RequestsKept, DecideIntent, Explains, RequestsMatch;
    u := DecideIntent(t, owner, key, id, digest, consent, current, now, later).0;
    DecideRemembers(t, owner, key, id, digest, consent, current, now, later);
    SameRequestsKept(t, u);
    var e := DecideEffect(t, owner, key, id, digest, consent, current, now, later, u);
    KnownEffectKeeps(t, u, e, now, later);
  }

  lemma ConsumeStaysSound(t: Tables, owner: Owner, key: string, id: Id, digest: Digest, current: Result<Release>, special: Result<()>, newId: Id, now: int, later: int) returns (u: Tables)
    requires Sound(t, now) && now <= later && Unheard(t, newId)
    ensures u == Consume(t, owner, key, id, digest, current, special, newId, now, later).0 && Sound(u, later)
  {
    hide TablesInv, RequestsKept, Consume, Explains, RequestsMatch, Unheard;
    u := Consume(t, owner, key, id, digest, current, special, newId, now, later).0;
    if id == "" {
      UnknownIntent(t, owner, key, id, digest, current, special, newId, now, later);
      SoundLater(t, now, later);
    } else {
      ConsumeRemembers(t, owner, key, id, digest, current, special, newId, now, later);
      var e := ConsumeEffect(t, owner, key, id, digest, current, special, newId, now, later, u);
      KnownEffectKeeps(t, u, e, now, later);
    }
  }

  lemma ActivateStaysSound(t: Tables, owner: Owner, key: string, id: Id, current: Result<Release>, special: Result<()>, ready: Result<()>, now: int, later: int) returns (u: Tables)
    requires Sound(t, now) && now <= later
    ensures u == ActivateAccess(t, owner, key, id, current, special, ready, later).0 && Sound(u, later)
  {
    hide TablesInv, RequestsKept, ActivateAccess, Explains, RequestsMatch;
    u := ActivateAccess(t, owner, key, id, current, special, ready, later).0;
    ActivateRemembers(t, owner, key, id, current, special, ready, later);
    var e := ActivateEffect(t, owner, key, id, current, special, ready, later, now, u);
    KnownEffectKeeps(t, u, e, now, later);
  }

  lemma TokenStaysSound(t: Tables, owner: Owner, key: string, id: Id, current: Result<Release>, special: Result<()>, tokenId: Id, now: int, later: int) returns (u: Tables)
    requires Sound(t, now) && now <= later
    ensures u == IssueAppToken(t, owner, key, id, current, special, tokenId, later).0 && Sound(u, later)
  {
    hide TablesInv, RequestsKept, IssueAppToken, Explains, RequestsMatch;
    u := IssueAppToken(t, owner, key, id, current, special, tokenId, later).0;
    TokenRemembers(t, owner, key, id, current, special, tokenId, later);
    var e := TokenEffect(t, owner, key, id, current, special, tokenId, later, now, u);
    KnownEffectKeeps(t, u, e, now, later);
  }

  lemma UninstallStaysSound(t: Tables, owner: Owner, key: string, id: Id, now: int, later: int) returns (u: Tables)
    requires Sound(t, now) && now <= later
    ensures u == UninstallAccess(t, owner, key, id, later).0 && Sound(u, later)
  {
    hide TablesInv, RequestsKept, UninstallAccess, Explains, RequestsMatch;
    u := UninstallAccess(t, owner, key, id, later).0;
    UninstallRemembers(t, owner, key, id, later);
    var e := UninstallEffect(t, owner, key, id, later, now, u);
    KnownEffectKeeps(t, u, e, now, later);
  }

  lemma DirectStaysSound(t: Tables, user: Id, key: string, action: DirectAction, m: Result<Manifest>, ready: Result<()>, newId: Id, now: int) returns (u: Tables)
    requires Sound(t, now) && Unheard(t, newId)
    ensures u == DirectRun(t, user, key, action, m, ready, newId, now).0 && Sound(u, now)
  {
    hide TablesInv, RequestsKept, DirectRun, Explains, RequestsMatch, Unheard;
    u := DirectRun(t, user, key, action, m, ready, newId, now).0;
    DirectRemembers(t, user, key, action, m, ready, newId, now);
    SameRequestsKept(t, u);
    var e := DirectEffect(t, user, key, action, m, ready, newId, now, u);
    KnownEffectKeeps(t, u, e, now, now);
  }

  lemma CompleteStaysSound(t: Tables, c: Cleanup, now: int) returns (u: Tables)
    requires Sound(t, now)
    ensures u == CompleteCleanup(t, c, now).0 && Sound(u, now)
  {
    hide TablesInv, RequestsKept, CompleteCleanup, Explains, RequestsMatch;
    u := CompleteCleanup(t, c, now).0;
    CleanupRemembers(t, c, now);
    SameRequestsKept(t, u);
    var e := CompleteEffect(t, c, now, u);
    KnownEffectKeeps(t, u, e, now, now);
  }

  lemma FailureStaysSound(t: Tables, c: Cleanup, now: int) returns (u: Tables)
    requires Sound(t, now)
    ensures u == RecordFailure(t, c, now) && Sound(u, now)
  {
    hide TablesInv, RequestsKept, RecordFailure, Explains, RequestsMatch;
    u := RecordFailure(t, c, now);
    CleanupRemembers(t, c, now);
    SameRequestsKept(t, u);
    var e := FailureEffect(t, c, now, u);
    KnownEffectKeeps(t, u, e, now, now);
  }

  lemma RetryStaysSound(t: Tables, id: Id, expected: Option<nat>, now: int) returns (u: Tables)
    requires Sound(t, now) && RetryCleanup(t, id, expected, now).Ok?
    ensures u == RetryCleanup(t, id, expected, now).value && Sound(u, now)
  {
    hide TablesInv, RequestsKept, RetryCleanup, Explains, RequestsMatch;
    u := RetryCleanup(t, id, expected, now).value;
    RetryRemembers(t, id, expected, now);
    SameRequestsKept(t, u);
    var e := RetryEffect(t, id, expected, now, u);
    KnownEffectKeeps(t, u, e, now, now);
  }
}
