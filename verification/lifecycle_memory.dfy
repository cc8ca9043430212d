// Recorded access requests and issued tokens are never lost or rewritten: a token
// only ever becomes revoked.
module LifecycleMemory {
  import opened Base
  import opened Consent
  import opened LifecycleTables
  import opened LifecycleRules
  import LifecycleSteps

  ghost predicate TokensKept(t: Tables, u: Tables) {
    forall k :: k in t.tokens ==> k in u.tokens && u.tokens[k] == t.tokens[k].(revoked := u.tokens[k].revoked) && (t.tokens[k].revoked ==> u.tokens[k].revoked)
  }

  // At most one request is added, and if it names a token then one of its own.
  ghost predicate RequestsKept(t: Tables, u: Tables) {
    && (forall q :: q in t.requests ==> q in u.requests && u.requests[q] == t.requests[q])
    && (forall q :: q in u.requests && q !in t.requests ==> HasToken(u, u.requests[q]))
  }

  predicate HasToken(t: Tables, r: AccessRequest) {
    r.token.Some? ==> r.token.value in t.tokens && t.tokens[r.token.value].installation == r.installation
  }

  // The token a request was answered with is there.
  ghost predicate TokensRecorded(t: Tables) {
    forall q :: q in t.requests ==> HasToken(t, t.requests[q])
  }

  lemma KeepingKeepsRecorded(t: Tables, u: Tables)
    requires TokensRecorded(t) && TokensKept(t, u) && RequestsKept(t, u)
    ensures TokensRecorded(u)
  {
  }

  lemma EffectKeepsTokens(e: Effect, t: Tables, u: Tables, now: int)
    requires Explains(e, t, u, now)
    ensures TokensKept(t, u)
  {
    hide Agreed, CapabilityBusy, BindingBusy, Consumed, Unheard, Serving;
  }

  lemma RevokeKeepsRequests(t: Tables, app: Id, row: Row)
    requires app in t.rows
    ensures UpdateRow(t, app, row).requests == t.requests
  {
    hide Revoke;
    LifecycleSteps.TriggerTouches(t.(rows := t.rows[app := row]), t.rows[app].id);
  }

  lemma PutKeepsRequests(t: Tables, app: Id, row: Row, now: int)
    ensures PutRow(t, app, row, now).requests == t.requests
  {
    hide UpdateRow, Renewed;
    if app in t.rows {
      RevokeKeepsRequests(t, app, Renewed(t, app, row, now));
    }
  }

  lemma AskingKeeps(t: Tables, u: Tables, at: OwnerKey, r: AccessRequest)
    requires u.requests == t.requests || (at !in t.requests && u.requests == t.requests[at := r] && HasToken(u, r))
    ensures RequestsKept(t, u)
  {
  }

  lemma PrepareRemembers(t: Tables, owner: Owner, key: string, app: Id, version: string, release: Result<Release>, newId: Id, now: int, later: int)
    ensures Prepare(t, owner, key, app, version, release, newId, now, later).0.requests == t.requests
  {
  }

  lemma DecideRemembers(t: Tables, owner: Owner, key: string, id: Id, digest: Digest, consent: bool, current: Result<Release>, now: int, later: int)
    ensures DecideIntent(t, owner, key, id, digest, consent, current, now, later).0.requests == t.requests
  {
  }

  lemma ConsumeRemembers(t: Tables, owner: Owner, key: string, id: Id, digest: Digest, current: Result<Release>, special: Result<()>, newId: Id, now: int, later: int)
    ensures RequestsKept(t, Consume(t, owner, key, id, digest, current, special, newId, now, later).0)
  {
    hide Replayed, Eligible, Consumed, PutRow, ConsentedRow;
    if id in t.intents {
      var i := t.intents[id];
      PutKeepsRequests(t.(consumptions := t.consumptions[newId := Consumption(id, owner, i.release, DigestOf(id, i), later)]), i.release.app, ConsentedRow(i, id, newId, later), later);
    }
  }

  lemma ActivateRemembers(t: Tables, owner: Owner, key: string, id: Id, current: Result<Release>, special: Result<()>, ready: Result<()>, later: int)
    ensures RequestsKept(t, ActivateAccess(t, owner, key, id, current, special, ready, later).0)
  {
    hide Replayed, ReadAccess, Usable, Ready, BindingBusy, CapabilityBusy, Activated, RequestsKept, Routed, HasToken;
    var u := ActivateAccess(t, owner, key, id, current, special, ready, later).0;
    var v := ReadAccess(t, owner, id);
    if v.Ok? && Holder(t.rows, id).Some? {
      ActivatedKeepsRequests(t, Holder(t.rows, id).value, v.value.release, later);
    }
    var r := AccessRequest(ActionBody(Activate, id), id, None);
    assert u.requests == t.requests || (OwnerKey(owner, key) !in t.requests && u.requests == t.requests[OwnerKey(owner, key) := r]);
    TokenlessHasToken(u, r);
    AskingKeeps(t, u, OwnerKey(owner, key), r);
  }

  lemma TokenlessHasToken(t: Tables, r: AccessRequest)
    requires r.token.None?
    ensures HasToken(t, r)
  {
  }

  lemma ActivatedKeepsRequests(t: Tables, app: Id, r: Release, later: int)
    requires app in t.rows
    ensures Activated(t, app, r, later).requests == t.requests
  {
    hide UpdateRow, Renewed;
    var u := t.(grants := if t.rows[app].id in t.grants && t.grants[t.rows[app].id].state.Waiting? then t.grants[t.rows[app].id := Grant(Granted, r.scopes)] else t.grants);
    RevokeKeepsRequests(u, app, Renewed(t, app, t.rows[app].(status := Active, scopes := r.scopes, capabilities := Routed(r)), later));
  }

  lemma TokenRemembers(t: Tables, owner: Owner, key: string, id: Id, current: Result<Release>, special: Result<()>, tokenId: Id, later: int)
    ensures RequestsKept(t, IssueAppToken(t, owner, key, id, current, special, tokenId, later).0)
  {
    hide Replayed, ReadAccess, Usable, Tokenless, RevokeTokens, RequestsKept;
    var r := AccessRequest(ActionBody(IssueToken, id), id, Some(tokenId));
    AskingKeeps(t, IssueAppToken(t, owner, key, id, current, special, tokenId, later).0, OwnerKey(owner, key), r);
  }

  lemma UninstallRemembers(t: Tables, owner: Owner, key: string, id: Id, later: int)
    ensures RequestsKept(t, UninstallAccess(t, owner, key, id, later).0)
  {
    hide Replayed, ReadAccess, Retired, RequestsKept;
    if Holder(t.rows, id).Some? {
      RetiredKeepsRequests(t, Holder(t.rows, id).value, Disabling, later);
      RetiredKeepsRequests(t, Holder(t.rows, id).value, Uninstalled, later);
    }
    AskingKeeps(t, UninstallAccess(t, owner, key, id, later).0, OwnerKey(owner, key), AccessRequest(ActionBody(Uninstall, id), id, None));
  }

  lemma RetiredKeepsRequests(t: Tables, app: Id, status: Status, later: int)
    requires app in t.rows
    ensures Retired(t, app, status, later).requests == t.requests
  {
    hide UpdateRow, Renewed;
    RevokeKeepsRequests(t, app, Renewed(t, app, t.rows[app].(status := status, scopes := [], capabilities := []), later));
  }

  lemma ChangeRemembers(t: Tables, at: DirectKey, body: DirectBody, app: Id, next: Row, changed: bool, now: int)
    ensures Change(t, at, body, app, next, changed, now).0.requests == t.requests
  {
    hide PutRow, AppBusy;
    PutKeepsRequests(t, app, if app in t.rows then next.(intent := t.rows[app].intent) else next.(intent := ""), now);
  }

  lemma DirectRemembers(t: Tables, user: Id, key: string, action: DirectAction, m: Result<Manifest>, ready: Result<()>, newId: Id, now: int)
    ensures DirectRun(t, user, key, action, m, ready, newId, now).0.requests == t.requests
  {
    hide Change, Transition;
    forall next, changed
      ensures Change(t, DirectKey(user, key), Act(action), action.app, next, changed, now).0.requests == t.requests
    {
      ChangeRemembers(t, DirectKey(user, key), Act(action), action.app, next, changed, now);
    }
  }

  lemma CleanupRemembers(t: Tables, c: Cleanup, now: int)
    ensures CompleteCleanup(t, c, now).0.requests == t.requests
    ensures RecordFailure(t, c, now).requests == t.requests
  {
    hide Change, UpdateRow, Postponed;
    if Cleanable(t, c) {
      ChangeRemembers(t, CleanupKey(c), CleanUp(c.id), c.app, t.rows[c.app].(status := Uninstalled), true, now);
    }
    var app := Holder(t.rows, c.id);
    if app.Some? {
      RevokeKeepsRequests(t, app.value, t.rows[app.value].(cleanup := Postponed(t.rows[app.value].cleanup, c.attempts, now)));
    }
  }

  lemma RetryRemembers(t: Tables, id: Id, expected: Option<nat>, now: int)
    requires RetryCleanup(t, id, expected, now).Ok?
    ensures RetryCleanup(t, id, expected, now).value.requests == t.requests
  {
    hide UpdateRow;
    var app := Holder(t.rows, id).value;
    RevokeKeepsRequests(t, app, t.rows[app].(cleanup := Recovery(0, now, t.rows[app].cleanup.revision + 1)));
  }
}
