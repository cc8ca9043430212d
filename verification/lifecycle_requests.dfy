// When the requests of the lifecycle succeed and what they leave behind, in terms a
// caller can check: every first request in every reachable state.
module LifecycleRequests {
  import opened Base
  import opened Consent
  import opened LifecycleTables
  import opened LifecycleRules
  import LifecycleSteps
  import opened Lifecycle
  import opened LifecycleSafety
  import opened LifecycleResults

  // ------------------------------------------------------------------- eligibility

  predicate Shipping(r: Release, scopes: seq<string>) {
    r.capabilities == ["shipping/v1"] && r.scopes == scopes
  }

  predicate BoundTo(r: Release, engine: string) {
    r.binding.Some? && r.binding.value.engine == engine && r.binding.value.provider != ""
  }

  // The closed list, by what may be granted.
  predicate OnTheList(r: Release) {
    || (r.capabilities == ["payment/v1"] && r.scopes == ["orders.read", "payments.read", "payments.write"] && !Ships(r.profile) && !r.profile.KurirFixture?)
    || (Shipping(r, ["orders.read", "shipping.read", "shipping.write"]) && !Ships(r.profile) && !r.profile.KurirFixture?)
    || (Shipping(r, ["shipping.read"])
        && match r.profile
           case KurirFixture => r.app == "api-kurir-reference"
           case ShippingFixture => r.binding.Some?
           case ManagedShippingLocal => r.policy.ManagedShipping? && r.source.Some? && r.source.value.environment == "local-isolated" && r.binding == Some(Binding("api-kurir", "emisell"))
           case ProviderAppLocal => ProviderSourced(r)
           case _ => false)
    || (Shipping(r, ["shipping.read", "shipping.write"]) && r.profile.ProviderAppLocal? && ProviderSourced(r))
  }

  predicate ProviderSourced(r: Release) {
    r.policy.ProviderApp? && r.source.Some? && r.source.value.merchant != "" && r.source.value.environment != "" && BoundTo(r, "api-kurir")
  }

  // A release of the closed policies may be installed, activated and given tokens exactly
  // as long as its registry still says the same of it and it is on the list.
  lemma ListedIsEligibleExactlyWhen(r: Release, current: Result<Release>, special: Result<()>)
    requires r.policy.LocalFixture? || r.policy.ManagedShipping? || r.policy.ProviderApp?
    ensures Eligible(r, current, special).Ok? <==> r.resource.None? && current == Ok(r) && OnTheList(r)
  {
  }

  // A release of the other policies: exactly as long as its own registry says the same of
  // it, it has the shape of its policy and whatever else that policy asks is in order.
  lemma ManagedIsEligibleExactlyWhen(r: Release, current: Result<Release>, special: Result<()>)
    requires r.policy.ResourceApp? || r.policy.ReviewedUi? || r.policy.EmbeddedPilot?
    ensures Eligible(r, current, special).Ok? ==> current == Ok(r) && special.Ok? && Shaped(r)
    ensures current == Ok(r) && special.Ok? && Shaped(r) && (r.resource.Some? ==> r.policy.ResourceApp?) ==> Eligible(r, current, special).Ok?
    ensures !r.policy.ResourceApp? && Eligible(r, current, special).Ok? ==> r.resource.None? && r.scopes == [] && r.capabilities == []
  {
    hide SourceAdmits, Canonical;
  }

  // ------------------------------------------------------------------- repetitions

  // A recorded key answers what it recorded to the very same request and Conflict to any
  // other, whatever the registry says by now, and changes nothing.
  lemma IntentRepeatsAnswerTheRecord(t: Tables, owner: Owner, key: string, app: Id, version: string, release: Result<Release>, newId: Id, id: Id, digest: Digest, consent: bool, now: int, later: int)
    requires OwnerKey(owner, key) in t.intentRequests
    ensures var record := t.intentRequests[OwnerKey(owner, key)];
            && Prepare(t, owner, key, app, version, release, newId, now, later) == (t, if record == IntentRequest(PrepareBody(app, version), record.intent) then Ok(record.intent) else Err(Conflict))
            && DecideIntent(t, owner, key, id, digest, consent, release, now, later) == (t, if record == IntentRequest(DecideBody(id, digest, consent), record.intent) then Ok(record.intent) else Err(Conflict))
  {
  }

  // The same of access requests, which show the installation as it is now.
  lemma AccessRepeatsShowTheInstallation(t: Tables, owner: Owner, key: string, id: Id, digest: Digest, current: Result<Release>, special: Result<()>, ready: Result<()>, newId: Id, now: int, later: int)
    requires OwnerKey(owner, key) in t.requests
    ensures var record := t.requests[OwnerKey(owner, key)];
            var view := ReadAccess(t, owner, record.installation);
            && Consume(t, owner, key, id, digest, current, special, newId, now, later) == (t, if record.body == ConsumeBody(id, digest) then view else Err(Conflict))
            && ActivateAccess(t, owner, key, id, current, special, ready, later) == (t, if record.body == ActionBody(Activate, id) then view else Err(Conflict))
            && IssueAppToken(t, owner, key, id, current, special, newId, later) == (t, if record.body == ActionBody(IssueToken, id) then view else Err(Conflict))
            && UninstallAccess(t, owner, key, id, later) == (t, if record.body == ActionBody(Uninstall, id) then view else Err(Conflict))
  {
  }

  lemma DirectRepeatsAnswerTheReceipt(t: Tables, user: Id, key: string, action: DirectAction, m: Result<Manifest>, ready: Result<()>, newId: Id, now: int)
    requires DirectKey(user, key) in t.receipts && m.Ok? && !Fixture(m.value)
    ensures var receipt := t.receipts[DirectKey(user, key)];
            DirectRun(t, user, key, action, m, ready, newId, now) == (t, if receipt.body == Act(action) then Ok(receipt) else Err(Conflict))
  {
  }

  // ------------------------------------------------------------------------ intents

  // Two intents never have the same digest: it says which intent, whose, of what release
  // and until when.
  lemma DigestTellsApart(id: Id, i: Intent, other: Id, j: Intent)
    requires DigestOf(id, i) == DigestOf(other, j)
    ensures id == other && i.owner == j.owner && i.release == j.release && i.createdAt == j.createdAt && i.expiresAt == j.expiresAt
  {
  }

  lemma PreparesExactlyWhen(t: Tables, owner: Owner, key: string, app: Id, version: string, release: Result<Release>, newId: Id, now: int, later: int, u: Tables, r: Result<Id>)
    requires OwnerKey(owner, key) !in t.intentRequests && (u, r) == Prepare(t, owner, key, app, version, release, newId, now, later)
    ensures r.Ok? <==> release.Ok? && later < now + 600 && newId !in t.intents
    ensures r.Err? ==> u == t
    ensures r.Ok? ==> r.value == newId && u.intents == t.intents[newId := Intent(owner, release.value, Undecided, now, now + 600, None)]
    ensures r.Ok? ==> u == t.(intents := u.intents, intentRequests := t.intentRequests[OwnerKey(owner, key) := IntentRequest(PrepareBody(app, version), newId)])
  {
  }

  // A decision counts exactly when its owner makes it on the digest of an undecided
  // intent, within ten minutes, and agreeing only while the registry still says the same.
  lemma DecidesExactlyWhen(w: World, now: int, owner: Owner, key: string, id: Id, digest: Digest, consent: bool, current: Result<Release>, later: int, u: Tables, r: Result<Id>)
    requires Reachable(w, now) && now <= later && OwnerKey(owner, key) !in w.tables.intentRequests
    requires (u, r) == DecideIntent(w.tables, owner, key, id, digest, consent, current, now, later)
    ensures r.Ok? <==>
            && id in w.tables.intents
            && (var i := w.tables.intents[id];
                i.owner == owner && i.state.Undecided? && digest == DigestOf(id, i) && (consent ==> current == Ok(i.release)) && later < i.createdAt + 600)
    ensures r.Err? ==> u == w.tables
    ensures r.Ok? ==> id in w.tables.intents && u.intents == w.tables.intents[id := w.tables.intents[id].(state := if consent then Consented else Denied, decidedAt := Some(later))]
  {
    hide Reachable, UniqueIds, RowsMatch, GrantsMatch, TokensMatch, RoutesApart, BindingsApart, ConsentsMatch, NoticesMatch, DecisionsMatch, RequestsMatch;
    ReachableTables(w, now);
  }

  // ------------------------------------------------------------------------- access

  // A consent is used exactly once: by its owner, with its digest, within ten minutes,
  // while its release is eligible and no other installation of the app is there.
  lemma ConsumesExactlyWhen(w: World, now: int, owner: Owner, key: string, id: Id, digest: Digest, current: Result<Release>, special: Result<()>, newId: Id, later: int, u: Tables, r: Result<View>)
    requires Reachable(w, now) && now <= later && OwnerKey(owner, key) !in w.tables.requests
    requires (u, r) == Consume(w.tables, owner, key, id, digest, current, special, newId, now, later)
    ensures r.Ok? <==>
            && id in w.tables.intents
            && (var i := w.tables.intents[id];
                && i.owner == owner && i.state.Consented? && digest == DigestOf(id, i) && later < i.createdAt + 600
                && Eligible(i.release, current, special).Ok?
                && (forall k :: k in w.tables.consumptions ==> w.tables.consumptions[k].intent != id)
                && (i.release.app in w.tables.rows ==> w.tables.rows[i.release.app].status.Uninstalled?))
    ensures r.Err? ==> u == w.tables
  {
    hide Reachable, UniqueIds, RowsMatch, GrantsMatch, TokensMatch, RoutesApart, BindingsApart, ConsentsMatch, NoticesMatch, DecisionsMatch, RequestsMatch, Eligible, Bind;
    ReachableTables(w, now);
  }

  lemma PutPending(t: Tables, app: Id, row: Row, now: int)
    requires row.status.Pending?
    ensures PutRow(t, app, row, now) == t.(rows := t.rows[app := Renewed(t, app, row, now)])
  {
    hide Revoke;
  }

  // What it becomes: a pending installation of exactly that release, with a grant that
  // still waits, announced and on record under the consent.
  lemma ConsumedIsPending(t: Tables, owner: Owner, key: string, id: Id, digest: Digest, current: Result<Release>, special: Result<()>, newId: Id, now: int, later: int, u: Tables, r: Result<View>)
    requires OwnerKey(owner, key) !in t.requests && (u, r) == Consume(t, owner, key, id, digest, current, special, newId, now, later) && r.Ok?
    ensures id in t.intents
    ensures var q := t.intents[id].release;
            && q.app in u.rows && u.rows == t.rows[q.app := u.rows[q.app]]
            && u.rows[q.app].(cleanup := Recovery(0, 0, 0)) == Row(newId, q.version, Pending, q.scopes, if Ships(q.profile) then [] else q.capabilities, later, id, Recovery(0, 0, 0))
            && u.grants == t.grants[newId := Grant(Waiting, [])] && u.notices == t.notices + [Notice(newId, Pending)]
            && u.consumptions == t.consumptions[newId := Consumption(id, owner, q, digest, later)]
            && r.value == View(id, q, digest, later, Pending, Grant(Waiting, []))
  {
    hide Eligible, PutRow, Live, Replayed;
    var i := t.intents[id];
    PutPending(t.(consumptions := t.consumptions[newId := Consumption(id, owner, i.release, DigestOf(id, i), later)]), i.release.app, ConsentedRow(i, id, newId, later), later);
  }

  // Nothing but what a caller can check stands between a token and the app's work: it was
  // issued for this installation and is neither revoked nor expired, at neither reading of
  // the clock, the installation is that of the app, and its release is still eligible.
  lemma TokenWorksExactlyWhen(w: World, now: int, token: Id, app: Id, id: Id, current: Result<Release>, special: Result<()>, later: int)
    requires Reachable(w, now) && now <= later
    ensures CheckToken(w.tables, token, app, id, current, special, now, later).Ok? <==>
            var t := w.tables;
            && token in t.tokens && t.tokens[token].installation == id && !t.tokens[token].revoked && later < t.tokens[token].expiresAt
            && app in t.rows && t.rows[app].id == id && id in t.consumptions && Eligible(t.consumptions[id].release, current, special).Ok?
  {
    hide Reachable, RoutesApart, BindingsApart, IntentsMatch, ConsentsMatch, NoticesMatch, DecisionsMatch, RequestsMatch, Eligible, Routed, Held, ReadAccess;
    ReachableTables(w, now);
    var t := w.tables;
    if id in t.consumptions {
      AccessNeverDrifts(w, now, id);
    }
    if app in t.rows && t.rows[app].id == id {
      HolderIs(t.rows, app);
    }
  }

  // What a token request leaves behind: the new token, good for 900 seconds, in place of
  // all earlier ones of this installation; everybody else's are as they were.
  lemma TokenReplacesTheOthers(t: Tables, owner: Owner, key: string, id: Id, current: Result<Release>, special: Result<()>, token: Id, now: int, u: Tables, r: Result<View>)
    requires OwnerKey(owner, key) !in t.requests && (u, r) == IssueAppToken(t, owner, key, id, current, special, token, now)
    ensures r.Err? ==> u == t
    ensures r.Ok? ==> token !in t.tokens && u.tokens.Keys == t.tokens.Keys + {token} && u.tokens[token] == AppToken(id, now, now + 900, false)
    ensures r.Ok? ==> forall k :: k in t.tokens ==> u.tokens[k] == if t.tokens[k].installation == id then t.tokens[k].(revoked := true) else t.tokens[k]
    ensures r.Ok? ==> u.rows == t.rows && u.grants == t.grants && u.consumptions == t.consumptions && u.notices == t.notices
  {
    hide ReadAccess, Eligible, Tokenless;
  }

  // ----------------------------------------------------------------------- connecting

  // Who may be connected: exactly an installation in use whose app the registry has as
  // remote, with the version and scopes that are installed.
  lemma ConnectsExactlyWhen(w: World, now: int, id: Id, m: Manifest)
    requires Reachable(w, now)
    ensures Gate(w.tables, id, m) <==>
            && m.app in w.tables.rows && w.tables.rows[m.app].id == id && InUse(w.tables.rows[m.app].status)
            && m.profile.LocalRemote? && m.version == w.tables.rows[m.app].version && m.scopes == w.tables.rows[m.app].scopes
  {
    hide Reachable, RowsMatch, GrantsMatch, TokensMatch, RoutesApart, BindingsApart, IntentsMatch, ConsentsMatch, NoticesMatch, DecisionsMatch, RequestsMatch, HasActiveGrant;
    ReachableTables(w, now);
    if m.app in w.tables.rows && w.tables.rows[m.app].id == id {
      HolderIs(w.tables.rows, m.app);
      if w.tables.rows[m.app].status.Active? {
        ActiveHasGrant(w.tables, m.app, now);
      }
    }
  }

  // -------------------------------------------------------------------------- cleanup

  // Which retries of a cleanup are granted, and that all they do is start it over.
  lemma RetriesExactlyWhen(w: World, now: int, id: Id, expected: Option<nat>, app: Id)
    requires Reachable(w, now) && app in w.tables.rows && w.tables.rows[app].id == id
    ensures var row, r := w.tables.rows[app], RetryCleanup(w.tables, id, expected, now);
            && (r.Ok? <==> row.status.Disabling? && (expected.Some? ==> row.cleanup.attempts == 12 && row.cleanup.revision == expected.value))
            && (r.Err? ==> r.fault == if expected.Some? then Conflict else NotFound)
            && (r.Ok? ==> r.value.rows == w.tables.rows[app := row.(cleanup := Recovery(0, now, row.cleanup.revision + 1))] && r.value.notices == w.tables.notices && r.value.receipts == w.tables.receipts)
  {
    hide Reachable, RowsMatch, GrantsMatch, TokensMatch, RoutesApart, BindingsApart, IntentsMatch, ConsentsMatch, NoticesMatch, DecisionsMatch, RequestsMatch, RevokeTokens, WorkersMatch, ChargesMatch, EndsClean;
    EveryRunIsSafe(w, now);
    HolderIs(w.tables.rows, app);
  }

  // --------------------------------------------------------------------- direct path

  predicate Fixture(m: Manifest) {
    m.profile.KurirFixture? || m.profile.ShippingFixture?
  }

  // Another app is active with one of these capabilities.
  ghost predicate ServedByAnother(rows: map<Id, Row>, app: Id, capabilities: seq<string>) {
    exists a, c :: a in rows && a != app && rows[a].status.Active? && c in rows[a].capabilities && c in capabilities
  }

  // What a first request of the direct path needs: a manifest that is no fixture, a row
  // that is not the consent path's, and for an installation the very version and scopes, for
  // a start a row in use with both, the remote app's connection, and no other app that
  // serves a capability. A removal needs nothing more.
  ghost predicate MayAct(rows: map<Id, Row>, action: DirectAction, m: Result<Manifest>, ready: Result<()>) {
    && m.Ok? && !Fixture(m.value) && (action.app in rows ==> rows[action.app].intent == "")
    && match action
       case Install(_, version, grants) =>
         version == m.value.version && (forall i, j :: 0 <= i < j < |m.value.scopes| ==> m.value.scopes[i] != m.value.scopes[j]) && (forall s :: s in grants <==> s in m.value.scopes)
       case Start(app) =>
         && app in rows && InUse(rows[app].status) && rows[app].version == m.value.version && rows[app].scopes == m.value.scopes
         && (m.value.profile.LocalRemote? ==> ready.Ok?)
         && (rows[app].status.Pending? ==> !ServedByAnother(rows, app, rows[app].capabilities))
       case Remove(_) => true
  }

  lemma BusyMeansServed(rows: map<Id, Row>, app: Id, capabilities: seq<string>)
    ensures AppBusy(rows, app, capabilities) <==> ServedByAnother(rows, app, capabilities)
  {
    if AppBusy(rows, app, capabilities) {
      var a, i :| a in rows && 0 <= i < |capabilities| && a != app && rows[a].status.Active? && capabilities[i] in rows[a].capabilities;
      assert capabilities[i] in capabilities;
    }
    if a, c :| a in rows && a != app && rows[a].status.Active? && c in rows[a].capabilities && c in capabilities {
      var i :| 0 <= i < |capabilities| && capabilities[i] == c;
      assert capabilities[i] in rows[a].capabilities;
    }
  }

  // What the row is afterwards: new and pending, active, or out of use, through disabling
  // if the manifest is the remote one; what is already so stays as it is.
  ghost predicate Acted(t: Tables, u: Tables, action: DirectAction, m: Manifest, newId: Id, now: int, r: DirectReceipt) {
    var rows := t.rows;
    var was := if action.app in rows then Some(rows[action.app]) else None;
    match action
    case Install(app, version, _) =>
      if was.Some? && !was.value.status.Uninstalled? then Unmoved(t, u, was.value, r)
      else MovedTo(t, u, app, Row(newId, version, Pending, m.scopes, m.capabilities, now, if was.Some? then was.value.intent else "", Recovery(0, 0, 0)), r)
    case Start(app) =>
      was.Some? && (if was.value.status.Active? then Unmoved(t, u, was.value, r) else MovedTo(t, u, app, was.value.(status := Active), r))
    case Remove(app) =>
      if was.None? then u == t.(receipts := u.receipts) && r.status.Uninstalled?
      else if !InUse(was.value.status) then Unmoved(t, u, was.value, r)
      else MovedTo(t, u, app, was.value.(status := if m.profile.LocalRemote? then Disabling else Uninstalled, scopes := [], capabilities := []), r)
  }

  ghost predicate Unmoved(t: Tables, u: Tables, row: Row, r: DirectReceipt) {
    u == t.(receipts := u.receipts) && r.installation == row.id && r.status == row.status
  }

  // But for the cleanup columns, which every status write starts over.
  ghost predicate MovedTo(t: Tables, u: Tables, app: Id, row: Row, r: DirectReceipt) {
    && app in u.rows && u.rows == t.rows[app := u.rows[app]] && u.rows[app].(cleanup := row.cleanup) == row
    && u.notices == t.notices + [Notice(row.id, row.status)] && r.installation == row.id && r.status == row.status
  }

  lemma ActsExactlyWhen(t: Tables, user: Id, key: string, action: DirectAction, m: Result<Manifest>, ready: Result<()>, newId: Id, now: int, u: Tables, r: Result<DirectReceipt>)
    requires DirectKey(user, key) !in t.receipts && (u, r) == DirectRun(t, user, key, action, m, ready, newId, now)
    ensures r.Ok? <==> MayAct(t.rows, action, m, ready)
    ensures r.Err? ==> u == t
  {
    hide PutRow, AppBusy, Announce;
    if action.app in t.rows {
      BusyMeansServed(t.rows, action.app, t.rows[action.app].capabilities);
    }
    if action.Install? && m.Ok? {
      SameScopes(action.grants, m.value.scopes);
    }
  }

  lemma SameScopes(grants: multiset<string>, scopes: seq<string>)
    ensures (set s | s in grants) == (set s | s in scopes) <==> forall s :: s in grants <==> s in scopes
  {
    var a, b := set s | s in grants, set s | s in scopes;
    assert forall s :: s in a <==> s in grants;
    assert forall s :: s in b <==> s in scopes;
  }

  lemma WrittenRow(t: Tables, app: Id, row: Row, now: int)
    ensures var u := PutRow(t, app, row, now); app in u.rows && u.rows == t.rows[app := u.rows[app]] && u.rows[app].(cleanup := row.cleanup) == row && u.notices == t.notices && u.receipts == t.receipts
  {
    hide Revoke;
    if app in t.rows {
      LifecycleSteps.TriggerTouches(t.(rows := t.rows[app := Renewed(t, app, row, now)]), t.rows[app].id);
    }
  }

  lemma ChangedRow(t: Tables, at: DirectKey, body: DirectBody, app: Id, next: Row, changed: bool, now: int, u: Tables, r: Result<DirectReceipt>)
    requires (u, r) == Change(t, at, body, app, next, changed, now) && r.Ok?
    ensures at in u.receipts && u.receipts[at] == r.value && r.value == DirectReceipt(body, next.id, next.status)
    ensures !changed ==> u == t.(receipts := u.receipts)
    ensures changed ==> MovedTo(t, u, app, next.(intent := if app in t.rows then t.rows[app].intent else ""), r.value)
  {
    hide PutRow, AppBusy;
    if changed {
      WrittenRow(t, app, next.(intent := if app in t.rows then t.rows[app].intent else ""), now);
    }
  }

  lemma ActedAsAsked(t: Tables, user: Id, key: string, action: DirectAction, m: Result<Manifest>, ready: Result<()>, newId: Id, now: int, u: Tables, r: Result<DirectReceipt>)
    requires DirectKey(user, key) !in t.receipts && (u, r) == DirectRun(t, user, key, action, m, ready, newId, now) && r.Ok?
    ensures m.Ok? && Acted(t, u, action, m.value, newId, now, r.value)
    ensures DirectKey(user, key) in u.receipts && u.receipts[DirectKey(user, key)] == r.value && r.value.body == Act(action)
  {
    hide Change, Distinct, MovedTo;
    var current := if action.app in t.rows then Some(t.rows[action.app]) else None;
    var (next, changed) := Transition(current, m.value, action, newId, now).value;
    ChangedRow(t, DirectKey(user, key), Act(action), action.app, next, changed, now, u, r);
    CleanupIsFree(t, u, action.app, next, r.value);
  }

  lemma CleanupIsFree(t: Tables, u: Tables, app: Id, row: Row, r: DirectReceipt)
    ensures forall c, intent :: MovedTo(t, u, app, row.(intent := intent), r) ==> MovedTo(t, u, app, row.(intent := intent, cleanup := c), r)
  {
  }
}
