// The installation tables as the transactions change them, statement by statement,
// under the tenant's lifecycle lock. A transaction that fails restores what it found.
module InstallationStore {
  import opened Base
  import opened Consent
  import opened LifecycleTables
  import opened LifecycleRules
  import opened LifecycleMemory
  import opened LifecycleTransactions

  const BATCH := 20

  function Apps(items: seq<Cleanup>): set<Id> {
    set c | c in items :: c.app
  }

  // Readings of due rows, each once, those that have waited longest first; a due row
  // that is left out has waited no longer.
  ghost predicate Picked(rows: map<Id, Row>, items: seq<Cleanup>, now: int) {
    && (forall i :: 0 <= i < |items| ==> items[i].app in rows && items[i] == ReadingOf(items[i].app, rows[items[i].app]) && DueCleanup(rows[items[i].app], now))
    && (forall i, j :: 0 <= i < j < |items| ==> items[i].app != items[j].app && rows[items[i].app].cleanup.nextAt <= rows[items[j].app].cleanup.nextAt)
    && (forall a, i :: a in rows && a !in Apps(items) && DueCleanup(rows[a], now) && 0 <= i < |items| ==> rows[items[i].app].cleanup.nextAt <= rows[a].cleanup.nextAt)
  }

  lemma NothingPicked(rows: map<Id, Row>, now: int)
    ensures Picked(rows, [], now)
  {
  }

  lemma PickedOneMore(rows: map<Id, Row>, items: seq<Cleanup>, app: Id, now: int)
    requires Picked(rows, items, now) && app in rows && app !in Apps(items) && DueCleanup(rows[app], now)
    requires forall a :: a in rows && a !in Apps(items) && DueCleanup(rows[a], now) ==> rows[app].cleanup.nextAt <= rows[a].cleanup.nextAt
    ensures Picked(rows, items + [ReadingOf(app, rows[app])], now)
  {
    hide DueCleanup;
    var more := items + [ReadingOf(app, rows[app])];
    assert Apps(more) == Apps(items) + {app} by {
      forall a | a in Apps(items) + {app}
        ensures a in Apps(more)
      {
        if a != app {
          var c :| c in items && c.app == a;
          assert c in more;
        } else {
          assert more[|items|] in more;
        }
      }
    }
  }

  // What a worker picks is waiting for its cleanup, has attempts left, and has waited.
  lemma PickedAreDue(rows: map<Id, Row>, items: seq<Cleanup>, now: int)
    requires Picked(rows, items, now)
    ensures forall c :: c in items ==>
                          && c.app in rows && c == Cleanup(rows[c.app].id, c.app, rows[c.app].cleanup.attempts, rows[c.app].cleanup.revision)
                          && rows[c.app].status.Disabling? && rows[c.app].cleanup.attempts < 12 && rows[c.app].cleanup.nextAt <= now
  {
  }

  class Repository {
    var intents: map<Id, Intent>
    var intentRequests: map<OwnerKey, IntentRequest>
    var rows: map<Id, Row>
    var consumptions: map<Id, Consumption>
    var grants: map<Id, Grant>
    var tokens: map<Id, AppToken>
    var requests: map<OwnerKey, AccessRequest>
    var receipts: map<DirectKey, DirectReceipt>
    var notices: seq<Notice>

    function State(): Tables
      reads this
    {
      Tables(intents, intentRequests, rows, consumptions, grants, tokens, requests, receipts, notices)
    }

    // What every transaction finds and leaves behind at time `now`.
    ghost predicate Valid(now: int)
      reads this
    {
      Sound(State(), now)
    }

    constructor ()
      ensures State() == EMPTY && forall now :: Valid(now)
    {
      intents, intentRequests, rows := map[], map[], map[];
      consumptions, grants, tokens := map[], map[], map[];
      requests, receipts, notices := map[], map[], [];
      new;
      forall now
        ensures Valid(now)
      {
        EmptyIsSound(now);
      }
    }

    lemma StaysValid(now: int, later: int)
      requires Valid(now) && now <= later
      ensures Valid(later)
    {
      SoundLater(State(), now, later);
    }

    lemma IdsAreUnique(now: int)
      requires Valid(now)
      ensures UniqueIds(rows)
    {
      SoundIsUnique(State(), now);
    }

    // SELECT ... WHERE id = $1
    method FindHolder(id: Id) returns (app: Option<Id>)
      requires UniqueIds(rows)
      ensures app == Holder(rows, id)
    {
      app := None;
      var rest := rows.Keys;
      while rest != {}
        invariant rest <= rows.Keys
        invariant app.Some? ==> app.value in rows && rows[app.value].id == id
        invariant app.None? ==> forall a :: a in rows.Keys - rest ==> rows[a].id != id
        decreases |rest|
      {
        var a :| a in rest;
        rest := rest - {a};
        if rows[a].id == id {
          app := Some(a);
        }
      }
      if app.Some? {
        HolderIs(rows, app.value);
      }
    }

    // The trigger of an installations update.
    method RevokeAccess(id: Id)
      modifies this`grants, this`tokens
      ensures State() == Revoke(old(State()), id)
    {
      if id in grants {
        grants := grants[id := Grant(Revoked, [])];
      }
      tokens := map k | k in tokens :: if tokens[k].installation == id then tokens[k].(revoked := true) else tokens[k];
    }

    method WriteRow(app: Id, row: Row)
      requires app in rows
      modifies this`rows, this`grants, this`tokens
      ensures State() == UpdateRow(old(State()), app, row)
    {
      var id := rows[app].id;
      rows := rows[app := row];
      if row.status.Disabling? || row.status.Uninstalled? {
        RevokeAccess(id);
      }
    }

    method UpsertRow(app: Id, row: Row, now: int)
      modifies this`rows, this`grants, this`tokens
      ensures State() == PutRow(old(State()), app, row, now)
    {
      if app in rows {
        WriteRow(app, row.(cleanup := Recovery(0, now, rows[app].cleanup.revision + 1)));
      } else {
        rows := rows[app := row.(cleanup := Recovery(0, now, 0))];
      }
    }

    // --------------------------------------------------------------- intents

    method PrepareIntent(owner: Owner, key: string, app: Id, version: string, release: Result<Release>, newId: Id, now: int, later: int) returns (r: Result<Id>)
      requires Valid(now)
      modifies this
      ensures (State(), r) == Prepare(old(State()), owner, key, app, version, release, newId, now, later)
      ensures now <= later && newId != "" && (release.Ok? ==> release.value.app == app && release.value.version == version) ==> Valid(later)
    {
      hide Sound;
      if now <= later && newId != "" && (release.Ok? ==> release.value.app == app && release.value.version == version) {
        ghost var u := PrepareStaysSound(State(), owner, key, app, version, release, newId, now, later);
      }
      var at, body := OwnerKey(owner, key), PrepareBody(app, version);
      if at in intentRequests {
        return if intentRequests[at].body == body then Ok(intentRequests[at].intent) else Err(Conflict);
      }
      if release.Err? {
        return Err(release.fault);
      }
      var next := NewIntent(owner, release.value, now);
      if later >= next.expiresAt {
        return Err(Conflict);
      }
      if newId in intents {
        return Err(Unavailable);
      }
      intents := intents[newId := next];
      intentRequests := intentRequests[at := IntentRequest(body, newId)];
      r := Ok(newId);
    }

    method ChangeIntent(owner: Owner, key: string, id: Id, digest: Digest, consent: bool, current: Result<Release>, now: int, later: int) returns (r: Result<Id>)
      requires Valid(now)
      modifies this
      ensures (State(), r) == DecideIntent(old(State()), owner, key, id, digest, consent, current, now, later)
      ensures now <= later ==> Valid(later)
    {
      hide Sound;
      if now <= later {
        ghost var u := DecideStaysSound(State(), owner, key, id, digest, consent, current, now, later);
      }
      var at, body := OwnerKey(owner, key), DecideBody(id, digest, consent);
      if at in intentRequests {
        return if intentRequests[at].body == body then Ok(intentRequests[at].intent) else Err(Conflict);
      }
      if id !in intents || intents[id].owner != owner {
        return Err(NotFound);
      }
      var decision := Decide(id, intents[id], digest, consent, now);
      if decision.Err? {
        return Err(decision.fault);
      }
      if consent && current.Err? {
        return Err(current.fault);
      }
      if consent && current.value != intents[id].release {
        return Err(Conflict);
      }
      if later >= intents[id].expiresAt {
        return Err(Conflict);
      }
      intents := intents[id := intents[id].(state := decision.value, decidedAt := Some(later))];
      intentRequests := intentRequests[at := IntentRequest(body, id)];
      r := Ok(id);
    }

    // ------------------------------------------------------------ consent path

    method ReadView(owner: Owner, id: Id) returns (r: Result<View>)
      requires UniqueIds(rows)
      ensures r == ReadAccess(State(), owner, id)
    {
      if id !in consumptions || id !in grants || consumptions[id].owner != owner {
        return Err(NotFound);
      }
      var c := consumptions[id];
      var app := FindHolder(id);
      var status := Uninstalled;
      if app.Some? {
        status := rows[app.value].status;
        if InUse(status) && Drifted(app.value, rows[app.value], c) {
          return Err(Forbidden);
        }
      }
      r := Ok(View(c.intent, c.release, c.digest, c.consumedAt, status, grants[id]));
    }

    lemma TokensAreRecorded(now: int)
      requires Valid(now)
      ensures TokensRecorded(State())
    {
      hide TokensRecorded, TablesInv;
    }

    // A recorded request answers with the current view and what became of its token,
    // or Conflict for another body.
    method Receipt(owner: Owner, at: OwnerKey, body: AccessBody, now: int) returns (r: Option<Result<View>>, token: Option<TokenView>)
      requires Valid(now)
      ensures r.Some? <==> at in requests
      ensures r.Some? ==> r.value == Replayed(State(), owner, at, body)
      ensures if r.Some? && r.value.Ok? then RecordedToken(State(), at, now) == Ok(token) else token == None
    {
      hide Sound, ReadAccess, UniqueIds;
      IdsAreUnique(now);
      TokensAreRecorded(now);
      token := None;
      if at !in requests {
        return None, None;
      }
      if requests[at].body != body {
        return Some(Err(Conflict)), None;
      }
      var v := ReadView(owner, requests[at].installation);
      if v.Ok? && requests[at].token.Some? {
        var id := requests[at].token.value;
        assert HasToken(State(), requests[at]);
        token := Some(TokenView(id, tokens[id].expiresAt, tokens[id].revoked || tokens[id].expiresAt <= now));
      }
      r := Some(v);
    }

    // The writes of a consumption: receipt row, installation, grant, notice, request.
    method InsertConsumption(at: OwnerKey, body: AccessBody, owner: Owner, id: Id, newId: Id, later: int)
      requires id in intents
      modifies this
      ensures State() == Bind(old(State()), at, body, owner, id, newId, later) && requests == old(requests)[at := AccessRequest(body, newId, None)]
    {
      hide UpdateRow, Routed;
      var i := intents[id];
      consumptions := consumptions[newId := Consumption(id, owner, i.release, DigestOf(id, i), later)];
      UpsertRow(i.release.app, ConsentedRow(i, id, newId, later), later);
      grants := grants[newId := Grant(Waiting, [])];
      notices := notices + [Notice(newId, Pending)];
      requests := requests[at := AccessRequest(body, newId, None)];
    }

    method ConsumeIntent(owner: Owner, key: string, id: Id, digest: Digest, current: Result<Release>, special: Result<()>, newId: Id, now: int, later: int) returns (r: Result<View>, token: Option<TokenView>)
      requires Valid(now)
      modifies this
      ensures (State(), r) == Consume(old(State()), owner, key, id, digest, current, special, newId, now, later)
      ensures now <= later && Unheard(old(State()), newId) ==> Valid(later)
      ensures if r.Ok? then RecordedToken(State(), OwnerKey(owner, key), now) == Ok(token) else token == None
    {
      hide ReadAccess, Eligible, Bind, UniqueIds, Sound, Unheard;
      IdsAreUnique(now);
      if now <= later && Unheard(State(), newId) {
        ghost var u := ConsumeStaysSound(State(), owner, key, id, digest, current, special, newId, now, later);
      }
      var at, body := OwnerKey(owner, key), ConsumeBody(id, digest);
      var replay;
      replay, token := Receipt(owner, at, body, now);
      if replay.Some? {
        return replay.value, token;
      }
      if id !in intents || intents[id].owner != owner {
        return Err(NotFound), None;
      }
      var i := intents[id];
      if exists k :: k in consumptions && consumptions[k].intent == id {
        return Err(Conflict), None;
      }
      if !i.state.Consented? || now >= i.expiresAt || digest != DigestOf(id, i) {
        return Err(Conflict), None;
      }
      var eligible := Eligible(i.release, current, special);
      if eligible.Err? {
        return Err(eligible.fault), None;
      }
      if later >= i.expiresAt {
        return Err(Conflict), None;
      }
      var app := i.release.app;
      if app in rows && !rows[app].status.Uninstalled? {
        return Err(Conflict), None;
      }
      InsertConsumption(at, body, owner, id, newId, later);
      r := Ok(View(id, i.release, DigestOf(id, i), later, Pending, Grant(Waiting, [])));
    }

    // The three writes of an activation: grant, row, notice.
    method SetActive(app: Id, release: Release, later: int)
      requires app in rows
      modifies this
      ensures State() == Activated(old(State()), app, release, later)
    {
      hide UpdateRow, Routed;
      var row := rows[app];
      if row.id in grants && grants[row.id].state.Waiting? {
        grants := grants[row.id := Grant(Granted, release.scopes)];
      }
      WriteRow(app, row.(status := Active, scopes := release.scopes, capabilities := Routed(release), cleanup := Recovery(0, later, row.cleanup.revision + 1)));
      notices := notices + [Notice(row.id, Active)];
    }

    method Activate(owner: Owner, key: string, id: Id, current: Result<Release>, special: Result<()>, ready: Result<()>, later: int) returns (r: Result<View>, token: Option<TokenView>)
      requires Valid(later)
      modifies this
      ensures (State(), r) == ActivateAccess(old(State()), owner, key, id, current, special, ready, later) && Valid(later)
      ensures if r.Ok? then RecordedToken(State(), OwnerKey(owner, key), later) == Ok(token) else token == None
    {
      hide ReadAccess, Eligible, Activated, CapabilityBusy, BindingBusy, Routed, Sound, UniqueIds;
      IdsAreUnique(later);
      ghost var u := ActivateStaysSound(State(), owner, key, id, current, special, ready, later, later);
      var at, body := OwnerKey(owner, key), ActionBody(LifecycleTables.Activate, id);
      var replay;
      replay, token := Receipt(owner, at, body, later);
      if replay.Some? {
        return replay.value, token;
      }
      var view := ReadView(owner, id);
      if view.Err? {
        return view, None;
      }
      var v := view.value;
      var usable := Usable(v, current, special);
      if usable.Err? {
        return Err(usable.fault), None;
      }
      var prepared := Ready(v.release, ready);
      if prepared.Err? {
        return Err(prepared.fault), None;
      }
      if v.status.Pending? {
        if Engine(v.release.profile) && BindingBusy(State(), id, v.release.binding) {
          return Err(Conflict), None;
        }
        if CapabilityBusy(rows, id, Routed(v.release)) {
          return Err(Conflict), None;
        }
        var app := FindHolder(id);
        if app.None? {
          return Err(Conflict), None;
        }
        SetActive(app.value, v.release, later);
      }
      requests := requests[at := AccessRequest(body, id, None)];
      r := Ok(v.(status := Active, grant := Grant(Granted, v.release.scopes)));
    }

    method IssueToken(owner: Owner, key: string, id: Id, current: Result<Release>, special: Result<()>, tokenId: Id, later: int) returns (r: Result<View>, token: Option<TokenView>)
      requires Valid(later)
      modifies this
      ensures (State(), r) == IssueAppToken(old(State()), owner, key, id, current, special, tokenId, later) && Valid(later)
      ensures if r.Ok? then RecordedToken(State(), OwnerKey(owner, key), later) == Ok(token) else token == None
    {
      hide ReadAccess, Eligible, Sound, UniqueIds;
      IdsAreUnique(later);
      ghost var u := TokenStaysSound(State(), owner, key, id, current, special, tokenId, later, later);
      var at, body := OwnerKey(owner, key), ActionBody(LifecycleTables.IssueToken, id);
      var replay;
      replay, token := Receipt(owner, at, body, later);
      if replay.Some? {
        return replay.value, token;
      }
      r := ReadView(owner, id);
      if r.Err? {
        return r, None;
      }
      var v := r.value;
      var usable := Usable(v, current, special);
      if usable.Err? {
        return Err(usable.fault), None;
      }
      if Tokenless(v.release) {
        return Err(Forbidden), None;
      }
      if !v.status.Active? || !v.grant.state.Granted? || v.grant.scopes != v.release.scopes {
        return Err(Conflict), None;
      }
      if tokenId in tokens {
        return Err(Unavailable), None;
      }
      tokens := map k | k in tokens :: if tokens[k].installation == id then tokens[k].(revoked := true) else tokens[k];
      tokens := tokens[tokenId := AppToken(id, later, later + TOKEN_TTL, false)];
      requests := requests[at := AccessRequest(body, id, Some(tokenId))];
      token := Some(TokenView(tokenId, later + TOKEN_TTL, false));
    }

    method Uninstall(owner: Owner, key: string, id: Id, later: int) returns (r: Result<View>, token: Option<TokenView>)
      requires Valid(later)
      modifies this
      ensures (State(), r) == UninstallAccess(old(State()), owner, key, id, later) && Valid(later)
      ensures if r.Ok? then RecordedToken(State(), OwnerKey(owner, key), later) == Ok(token) else token == None
    {
      hide ReadAccess, UpdateRow, Sound, UniqueIds;
      IdsAreUnique(later);
      ghost var u := UninstallStaysSound(State(), owner, key, id, later, later);
      var at, body := OwnerKey(owner, key), ActionBody(LifecycleTables.Uninstall, id);
      var replay;
      replay, token := Receipt(owner, at, body, later);
      if replay.Some? {
        return replay.value, token;
      }
      r := ReadView(owner, id);
      if r.Err? {
        return r, None;
      }
      var v := r.value;
      if InUse(v.status) {
        var app := FindHolder(id);
        if app.None? {
          return Err(Conflict), None;
        }
        var status := if v.release.profile.LocalRemote? then Disabling else Uninstalled;
        var row := rows[app.value];
        WriteRow(app.value, row.(status := status, scopes := [], capabilities := [], cleanup := Recovery(0, later, row.cleanup.revision + 1)));
        notices := notices + [Notice(id, status)];
        r := Ok(v.(status := status, grant := Grant(Revoked, [])));
      }
      requests := requests[at := AccessRequest(body, id, None)];
    }

    // ------------------------------------------------------------- direct path

    // The capability check loops over what the next state would route.
    method RoutesFree(app: Id, capabilities: seq<string>) returns (free: bool)
      ensures free == !AppBusy(rows, app, capabilities)
    {
      for i := 0 to |capabilities|
        invariant forall a, j :: a in rows && 0 <= j < i && a != app && rows[a].status.Active? ==> capabilities[j] !in rows[a].capabilities
      {
        if exists a :: a in rows && a != app && rows[a].status.Active? && capabilities[i] in rows[a].capabilities {
          return false;
        }
      }
      free := true;
    }

    method Change(at: DirectKey, body: DirectBody, app: Id, next: Row, changed: bool, now: int) returns (r: Result<DirectReceipt>)
      modifies this
      ensures (State(), r) == LifecycleTables.Change(old(State()), at, body, app, next, changed, now)
    {
      hide AppBusy, PutRow;
      var receipt := DirectReceipt(body, next.id, next.status);
      if changed {
        if next.status.Active? {
          var free := RoutesFree(app, next.capabilities);
          if !free {
            return Err(Conflict);
          }
        }
        UpsertRow(app, next.(intent := if app in rows then rows[app].intent else ""), now);
        notices := notices + [Notice(next.id, next.status)];
      }
      receipts := receipts[at := receipt];
      r := Ok(receipt);
    }

    method Execute(user: Id, key: string, action: DirectAction, m: Result<Manifest>, ready: Result<()>, newId: Id, now: int) returns (r: Result<DirectReceipt>)
      requires Valid(now)
      modifies this
      ensures (State(), r) == DirectRun(old(State()), user, key, action, m, ready, newId, now)
      ensures Unheard(old(State()), newId) ==> Valid(now)
    {
      hide LifecycleTables.Change, Sound, Unheard;
      if Unheard(State(), newId) {
        ghost var u := DirectStaysSound(State(), user, key, action, m, ready, newId, now);
      }
      if m.Err? {
        return Err(m.fault);
      }
      if m.value.profile.KurirFixture? || m.value.profile.ShippingFixture? {
        return Err(Forbidden);
      }
      var at := DirectKey(user, key);
      if at in receipts {
        return if receipts[at].body == Act(action) then Ok(receipts[at]) else Err(Conflict);
      }
      var current := if action.app in rows then Some(rows[action.app]) else None;
      if current.Some? && current.value.intent != "" {
        return Err(Forbidden);
      }
      if action.Start? && m.value.profile.LocalRemote? {
        if current.None? || !InUse(current.value.status) {
          return Err(Conflict);
        }
        if ready.Err? {
          return Err(ready.fault);
        }
      }
      var next := Transition(current, m.value, action, newId, now);
      if next.Err? {
        return Err(next.fault);
      }
      r := Change(at, Act(action), action.app, next.value.0, next.value.1, now);
    }

    // --------------------------------------------------------------- routing

    // The manifest the registry lists for this very installation and capability.
    static predicate Serves(m: Manifest, app: Id, row: Row, capability: string) {
      m.app == app && m.version == row.version && capability in m.capabilities
    }

    // SELECT ... WHERE status = 'active' AND capabilities ? $2
    method FindRoute(capability: string) returns (app: Option<Id>)
      ensures app.Some? ==> app.value in rows && rows[app.value].status.Active? && capability in rows[app.value].capabilities
      ensures app.None? ==> forall a :: a in rows && rows[a].status.Active? ==> capability !in rows[a].capabilities
    {
      var rest := rows.Keys;
      while rest != {}
        invariant rest <= rows.Keys
        invariant forall a :: a in rows.Keys - rest && rows[a].status.Active? ==> capability !in rows[a].capabilities
        decreases |rest|
      {
        var a :| a in rest;
        if rows[a].status.Active? && capability in rows[a].capabilities {
          return Some(a);
        }
        rest := rest - {a};
      }
      app := None;
    }

    // A capability reaches the one active installation that routes it, only with its
    // grant, the demanded scope and a listed manifest of the same version and scopes.
    method WithActive(capability: string, scope: string, apps: seq<Manifest>, now: int) returns (r: Result<Id>)
      requires Valid(now)
      ensures r.Ok? <==> exists a :: a in rows && rows[a].status.Active? && capability in rows[a].capabilities && HasActiveGrant(State(), rows[a])
                                      && scope in rows[a].scopes && exists i :: 0 <= i < |apps| && Serves(apps[i], a, rows[a], capability) && apps[i].scopes == rows[a].scopes
                                                                              && forall j :: 0 <= j < i ==> !Serves(apps[j], a, rows[a], capability)
      ensures r.Ok? ==> r.value in rows && rows[r.value].status.Active? && capability in rows[r.value].capabilities && scope in rows[r.value].scopes
      ensures r == Err(NotFound) <==> forall a :: a in rows && rows[a].status.Active? ==> capability !in rows[a].capabilities
    {
      hide Sound;
      SoundRoutesApart(State(), now);
      var app := FindRoute(capability);
      if app.None? {
        return Err(NotFound);
      }
      var row := rows[app.value];
      if !HasActiveGrant(State(), row) || scope !in row.scopes {
        return Err(Forbidden);
      }
      for i := 0 to |apps|
        invariant forall j :: 0 <= j < i ==> !Serves(apps[j], app.value, row, capability)
      {
        if Serves(apps[i], app.value, row, capability) {
          return if apps[i].scopes == row.scopes then Ok(app.value) else Err(Forbidden);
        }
      }
      r := Err(Unavailable);
    }

    // ----------------------------------------------------------------- cleanup

    method EarliestDue(skip: set<Id>, now: int) returns (app: Option<Id>)
      ensures app.None? ==> forall a :: a in rows && a !in skip ==> !DueCleanup(rows[a], now)
      ensures app.Some? ==>
                && app.value in rows && app.value !in skip && DueCleanup(rows[app.value], now)
                && forall a :: a in rows && a !in skip && DueCleanup(rows[a], now) ==> rows[app.value].cleanup.nextAt <= rows[a].cleanup.nextAt
    {
      app := None;
      var rest := rows.Keys - skip;
      while rest != {}
        invariant rest <= rows.Keys - skip
        invariant app.None? ==> forall a :: a in rows.Keys - skip - rest ==> !DueCleanup(rows[a], now)
        invariant app.Some? ==>
                    && app.value in rows && app.value !in skip && DueCleanup(rows[app.value], now)
                    && forall a :: a in rows.Keys - skip - rest && DueCleanup(rows[a], now) ==> rows[app.value].cleanup.nextAt <= rows[a].cleanup.nextAt
        decreases |rest|
      {
        var a :| a in rest;
        rest := rest - {a};
        if DueCleanup(rows[a], now) && (app.None? || rows[a].cleanup.nextAt < rows[app.value].cleanup.nextAt) {
          app := Some(a);
        }
      }
    }

    // SELECT ... WHERE status = 'disabling' AND ... ORDER BY cleanup_next_at LIMIT 20
    method PendingCleanup(now: int) returns (items: seq<Cleanup>)
      ensures |items| <= BATCH && Picked(rows, items, now)
      ensures forall c :: c in items ==>
                            && c.app in rows && c == Cleanup(rows[c.app].id, c.app, rows[c.app].cleanup.attempts, rows[c.app].cleanup.revision)
                            && rows[c.app].status.Disabling? && rows[c.app].cleanup.attempts < 12 && rows[c.app].cleanup.nextAt <= now
      ensures |items| < BATCH ==> forall a :: a in rows && DueCleanup(rows[a], now) ==> a in Apps(items)
    {
      hide Picked, DueCleanup;
      items := [];
      NothingPicked(rows, now);
      while |items| < BATCH
        invariant |items| <= BATCH && Picked(rows, items, now)
      {
        var next := EarliestDue(Apps(items), now);
        if next.None? {
          PickedAreDue(rows, items, now);
          return;
        }
        PickedOneMore(rows, items, next.value, now);
        items := items + [ReadingOf(next.value, rows[next.value])];
      }
      PickedAreDue(rows, items, now);
    }

    // After the remote side confirmed; the failure branch records the attempt.
    method Complete(c: Cleanup, now: int) returns (r: Result<DirectReceipt>)
      requires Valid(now)
      modifies this
      ensures (State(), r) == CompleteCleanup(old(State()), c, now) && Valid(now)
    {
      hide LifecycleTables.Change, Sound;
      ghost var u := CompleteStaysSound(State(), c, now);
      var at := CleanupKey(c);
      if at in receipts {
        return if receipts[at].body == CleanUp(c.id) then Ok(receipts[at]) else Err(Conflict);
      }
      if c.app !in rows || rows[c.app].id != c.id || !rows[c.app].status.Disabling? {
        return Err(Conflict);
      }
      r := Change(at, CleanUp(c.id), c.app, rows[c.app].(status := Uninstalled), true, now);
    }

    method Fail(c: Cleanup, now: int)
      requires Valid(now)
      modifies this
      ensures State() == RecordFailure(old(State()), c, now) && Valid(now)
    {
      hide Sound;
      IdsAreUnique(now);
      ghost var u := FailureStaysSound(State(), c, now);
      var app := FindHolder(c.id);
      if app.Some? && rows[app.value].status.Disabling? && rows[app.value].cleanup.revision == c.revision {
        var row := rows[app.value];
        WriteRow(app.value, row.(cleanup := Recovery(row.cleanup.attempts + 1, now + Backoff(c.attempts + 1), row.cleanup.revision + 1)));
      }
    }

    method Retry(id: Id, expected: Option<nat>, now: int) returns (fault: Option<Fault>)
      requires Valid(now)
      modifies this
      ensures Valid(now)
      ensures match RetryCleanup(old(State()), id, expected, now)
              case Err(f) => fault == Some(f) && State() == old(State())
              case Ok(t) => fault == None && State() == t
    {
      hide Sound;
      IdsAreUnique(now);
      if RetryCleanup(State(), id, expected, now).Ok? {
        ghost var u := RetryStaysSound(State(), id, expected, now);
      }
      var app := FindHolder(id);
      if app.None? {
        return Some(NotFound);
      }
      var row := rows[app.value];
      if !row.status.Disabling? {
        return Some(if expected.Some? then Conflict else NotFound);
      }
      if expected.Some? && (row.cleanup.attempts < MAX_ATTEMPTS || row.cleanup.revision != expected.value) {
        return Some(Conflict);
      }
      WriteRow(app.value, row.(cleanup := Recovery(0, now, row.cleanup.revision + 1)));
      fault := None;
    }
  }
}
