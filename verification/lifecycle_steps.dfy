// Every transaction has one of the known effects.
module LifecycleSteps {
  import opened Base
  import opened Consent
  import opened LifecycleTables
  import opened LifecycleRules

  lemma PrepareEffect(t: Tables, owner: Owner, key: string, app: Id, version: string, release: Result<Release>, newId: Id, now: int, later: int, u: Tables) returns (e: Effect)
    requires release.Ok? ==> release.value.app == app && release.value.version == version
    requires TablesInv(t, now) && now <= later && u == Prepare(t, owner, key, app, version, release, newId, now, later).0
    ensures Explains(e, t, u, later) && RequestsMatch(u.requests, u.consumptions)
    ensures !e.Moving? && !e.Tending? && (e.Deciding? ==> e.intent == newId && release.Ok? && e.next.release == release.value)
    ensures !e.Installing?
  {
    hide Kernel, RequestsMatch;
    e := Nothing;
    if u != t {
      e := Deciding(newId, NewIntent(owner, release.value, now), OwnerKey(owner, key), IntentRequest(PrepareBody(app, version), newId));
    }
  }

  lemma DecideEffect(t: Tables, owner: Owner, key: string, id: Id, digest: Digest, consent: bool, current: Result<Release>, now: int, later: int, u: Tables) returns (e: Effect)
    requires TablesInv(t, now) && now <= later && u == DecideIntent(t, owner, key, id, digest, consent, current, now, later).0
    ensures Explains(e, t, u, later) && RequestsMatch(u.requests, u.consumptions)
    ensures !e.Moving? && !e.Tending? && (e.Deciding? ==> e.intent in t.intents && e.next.release == t.intents[e.intent].release)
    ensures !e.Installing?
  {
    hide UniqueIds, RowsMatch, GrantsMatch, TokensMatch, RoutesApart, BindingsApart, ConsentsMatch, NoticesMatch, RequestsMatch;
    e := Nothing;
    if u != t {
      e := Deciding(id, u.intents[id], OwnerKey(owner, key), IntentRequest(DecideBody(id, digest, consent), id));
    }
  }

  // Why a consumption may be made now.
  ghost predicate MayConsume(t: Tables, owner: Owner, id: Id, later: int) {
    && id != "" && id in t.intents && !Consumed(t, id)
    && (var i := t.intents[id];
        && i.owner == owner && i.state.Consented? && Live(i, later)
        && Shaped(i.release)
        && (i.release.app in t.rows ==> t.rows[i.release.app].status.Uninstalled?))
  }

  lemma NewConsumption(t: Tables, at: OwnerKey, body: AccessBody, owner: Owner, id: Id, newId: Id, later: int, now: int, u: Tables, app: Id, row: Row)
    requires IntentsMatch(t.intents, now) && now <= later && Unheard(t, newId) && MayConsume(t, owner, id, later)
    requires u == Bind(t, at, body, owner, id, newId, later)
    requires app == t.intents[id].release.app && row == Renewed(t, app, ConsentedRow(t.intents[id], id, newId, later), later)
    ensures Installs(t, u, app, row)
    ensures u.requests == t.requests[at := AccessRequest(body, newId, None)] && newId in u.consumptions && u.consumptions[newId].owner == owner
    ensures u.consumptions == t.consumptions[newId := Consumption(id, owner, t.intents[id].release, DigestOf(id, t.intents[id]), later)] && newId !in t.consumptions
  {
    hide Shaped, Routed, Consumed, Revoke;
  }

  lemma EligibleIsShaped(r: Release, current: Result<Release>, special: Result<()>)
    requires Eligible(r, current, special).Ok?
    ensures Shaped(r)
  {
    hide Closed, ResourceShaped, UiShaped, PilotShaped;
  }

  // A request of an owner about a consumption of theirs joins the table, with that
  // consumption if it is the one it made.
  lemma RequestAdded(t: Tables, u: Tables, at: OwnerKey, r: AccessRequest)
    requires RequestsMatch(t.requests, t.consumptions) && at !in t.requests && u.requests == t.requests[at := r] && RequestOf(at, r, u.consumptions)
    requires forall k :: k in t.consumptions ==> k in u.consumptions && u.consumptions[k] == t.consumptions[k]
    requires forall k :: k in u.consumptions && k !in t.consumptions ==> k == r.installation && r.body.ConsumeBody?
    ensures RequestsMatch(u.requests, u.consumptions)
  {
    hide RequestOf, AskedFor;
    forall q | q in t.requests
      ensures RequestOf(q, t.requests[q], u.consumptions)
    {
      RequestStays(q, t.requests[q], t.consumptions, u.consumptions);
    }
    forall id | id in u.consumptions
      ensures AskedFor(u.requests, id, u.consumptions[id])
    {
      if id in t.consumptions {
        AskedStays(t.requests, at, r, id, t.consumptions[id]);
      } else {
        AskedNow(u.requests, at, r, u.consumptions);
      }
    }
  }

  lemma RequestStays(q: OwnerKey, r: AccessRequest, before: map<Id, Consumption>, after: map<Id, Consumption>)
    requires RequestOf(q, r, before) && forall k :: k in before ==> k in after && after[k] == before[k]
    ensures RequestOf(q, r, after)
  {
  }

  lemma AskedStays(requests: map<OwnerKey, AccessRequest>, at: OwnerKey, r: AccessRequest, id: Id, c: Consumption)
    requires AskedFor(requests, id, c) && at !in requests
    ensures AskedFor(requests[at := r], id, c)
  {
    var q :| q in requests && q.owner == c.owner && requests[q].installation == id && requests[q].body == ConsumeBody(c.intent, c.digest);
    assert requests[at := r][q] == requests[q];
  }

  lemma AskedNow(requests: map<OwnerKey, AccessRequest>, at: OwnerKey, r: AccessRequest, consumptions: map<Id, Consumption>)
    requires at in requests && requests[at] == r && r.body.ConsumeBody? && RequestOf(at, r, consumptions)
    ensures r.installation in consumptions && AskedFor(requests, r.installation, consumptions[r.installation])
  {
  }

  lemma ConsumeEffect(t: Tables, owner: Owner, key: string, id: Id, digest: Digest, current: Result<Release>, special: Result<()>, newId: Id, now: int, later: int, u: Tables) returns (e: Effect)
    requires TablesInv(t, now) && now <= later && Unheard(t, newId) && id != ""
    requires u == Consume(t, owner, key, id, digest, current, special, newId, now, later).0
    ensures Explains(e, t, u, later) && RequestsMatch(u.requests, u.consumptions)
    ensures !e.Moving? && !e.Tending? && !e.Deciding?
    ensures e.Installing? ==> e.row.intent == id
  {
    hide RowsMatch, GrantsMatch, TokensMatch, RoutesApart, BindingsApart, ConsentsMatch, NoticesMatch, IntentsMatch, DecisionsMatch, UniqueIds, RequestsMatch, Eligible, Bind, Replayed, Unheard, Consumed, Explains, Shaped;
    e := Nothing;
    if u != t {
      var r := t.intents[id].release;
      var row := Renewed(t, r.app, ConsentedRow(t.intents[id], id, newId, later), later);
      EligibleIsShaped(r, current, special);
      NewConsumption(t, OwnerKey(owner, key), ConsumeBody(id, digest), owner, id, newId, later, now, u, r.app, row);
      e := Installing(r.app, row);
      InstallingExplains(t, u, r.app, row, later);
      RequestAdded(t, u, OwnerKey(owner, key), AccessRequest(ConsumeBody(id, digest), newId, None));
    } else {
      NothingExplains(t, u, later);
    }
  }

  // The view of a row in use is the row, its consumption and its grant.
  lemma ViewIsRow(t: Tables, owner: Owner, id: Id, now: int) returns (app: Id)
    requires TablesInv(t, now) && ReadAccess(t, owner, id).Ok? && InUse(ReadAccess(t, owner, id).value.status)
    ensures app in t.rows && t.rows[app].id == id && Holder(t.rows, id) == Some(app)
    ensures id in t.consumptions && id in t.grants && t.consumptions[id].owner == owner && t.rows[app].intent != ""
    ensures var v := ReadAccess(t, owner, id).value; var row := t.rows[app];
            && v.status == row.status && v.release == t.consumptions[id].release && v.grant == t.grants[id]
            && row.scopes == v.release.scopes && row.capabilities == Routed(v.release) && v.release.app == app && row.version == v.release.version
  {
    hide GrantsMatch, TokensMatch, RoutesApart, BindingsApart, ConsentsMatch, NoticesMatch, RequestsMatch, IntentsMatch, DecisionsMatch, Routed;
    app := Holder(t.rows, id).value;
  }

  lemma ActivatedMoves(t: Tables, app: Id, r: Release, later: int, u: Tables, row: Row)
    requires app in t.rows && t.rows[app].status.Pending? && t.rows[app].scopes == r.scopes && t.rows[app].capabilities == Routed(r)
    requires t.rows[app].id in t.grants && t.grants[t.rows[app].id].state.Waiting?
    requires t.rows[app].id in t.consumptions && t.consumptions[t.rows[app].id].release == r
    requires !CapabilityBusy(t.rows, t.rows[app].id, Routed(r)) && !(Engine(r.profile) && BindingBusy(t, t.rows[app].id, r.binding))
    requires u == Activated(t, app, r, later) && row == Renewed(t, app, t.rows[app].(status := Active, scopes := r.scopes, capabilities := Routed(r)), later)
    ensures Moves(t, u, app, row) && u.requests == t.requests
  {
    hide Routed, CapabilityBusy, BindingBusy, Revoke;
  }

  lemma UnknownIntent(t: Tables, owner: Owner, key: string, id: Id, digest: Digest, current: Result<Release>, special: Result<()>, newId: Id, now: int, later: int)
    requires id !in t.intents
    ensures Consume(t, owner, key, id, digest, current, special, newId, now, later).0 == t
  {
  }

  // Profiles that are only as ready as something outside: the remote app's connection,
  // the shipping fixture, the shipping provider's engine.
  predicate Depends(p: Profile) {
    p.LocalRemote? || p.KurirFixture? || p.ShippingFixture? || p.ManagedShippingLocal? || p.ProviderAppLocal?
  }

  // An activation is not held up exactly when what its profile depends on is ready and a
  // shipping provider is bound; otherwise the answer is the dependency's own fault.
  lemma ReadyExactlyWhen(r: Release, ready: Result<()>)
    ensures var shipping := r.profile.ShippingFixture? || r.profile.ManagedShippingLocal? || r.profile.ProviderAppLocal?;
            && (Ready(r, ready).Ok? <==> (Depends(r.profile) ==> ready.Ok?) && (shipping ==> r.binding.Some?))
            && (Ready(r, ready).Err? ==> if shipping && r.binding.None? then Ready(r, ready) == Err(Unavailable) else Ready(r, ready) == ready)
  {
  }

  lemma ActivateEffect(t: Tables, owner: Owner, key: string, id: Id, current: Result<Release>, special: Result<()>, ready: Result<()>, later: int, now: int, u: Tables) returns (e: Effect)
    requires TablesInv(t, now) && now <= later && u == ActivateAccess(t, owner, key, id, current, special, ready, later).0
    ensures Explains(e, t, u, later) && RequestsMatch(u.requests, u.consumptions)
    ensures !e.Tending? && (e.Moving? ==> e.app in t.rows && InUse(t.rows[e.app].status)) && !e.Deciding?
    ensures e.Moving? ==> e.row.status.Active? && t.rows[e.app].id == id && id in t.consumptions && (Depends(t.consumptions[id].release.profile) ==> ready.Ok?)
    ensures !e.Installing?
  {
    hide Kernel, Eligible, Replayed, ReadAccess, CapabilityBusy, BindingBusy, Ready, Routed, Activated, Explains, Moves, RequestsMatch, Depends;
    e := Nothing;
    if u != t {
      var v := ReadAccess(t, owner, id).value;
      ReadyExactlyWhen(v.release, ready);
      var app := ViewIsRow(t, owner, id, now);
      var at := OwnerKey(owner, key);
      var r := AccessRequest(ActionBody(Activate, id), id, None);
      if v.status.Pending? {
        var w := Activated(t, app, v.release, later);
        var row := Renewed(t, app, t.rows[app].(status := Active, scopes := v.release.scopes, capabilities := Routed(v.release)), later);
        ActivatedMoves(t, app, v.release, later, w, row);
        e := Moving(app, row);
        SaveRequestMoves(t, w, app, row, u, later);
        RequestAdded(t, u, at, r);
      } else {
        NothingExplains(t, u, later);
        RequestAdded(t, u, at, r);
      }
    } else {
      NothingExplains(t, u, later);
    }
  }

  lemma SaveRequestMoves(t: Tables, w: Tables, app: Id, row: Row, u: Tables, now: int)
    requires Moves(t, w, app, row) && u == w.(requests := u.requests)
    ensures Explains(Moving(app, row), t, u, now) && u.consumptions == t.consumptions
  {
    hide CapabilityBusy, BindingBusy, RevokeTokens, Installs, Tends, Issues, Decides;
  }

  lemma IssuingExplains(t: Tables, u: Tables, token: Id, issued: AppToken, now: int)
    requires Issues(t, u, token, issued)
    ensures Explains(Issuing(token, issued), t, u, now)
  {
  }

  lemma TokenEffect(t: Tables, owner: Owner, key: string, id: Id, current: Result<Release>, special: Result<()>, tokenId: Id, later: int, now: int, u: Tables) returns (e: Effect)
    requires TablesInv(t, now) && now <= later && u == IssueAppToken(t, owner, key, id, current, special, tokenId, later).0
    ensures Explains(e, t, u, later) && RequestsMatch(u.requests, u.consumptions)
    ensures !e.Moving? && !e.Tending? && !e.Deciding?
    ensures !e.Installing?
  {
    hide Kernel, Eligible, Replayed, ReadAccess, Routed, Tokenless, RevokeTokens, Explains, RequestsMatch;
    e := Nothing;
    if u != t {
      var app := ViewIsRow(t, owner, id, now);
      e := Issuing(tokenId, AppToken(id, later, later + TOKEN_TTL, false));
      assert Serving(t.rows, id);
      IssuingExplains(t, u, tokenId, e.issued, later);
      RequestAdded(t, u, OwnerKey(owner, key), AccessRequest(ActionBody(IssueToken, id), id, Some(tokenId)));
    } else {
      NothingExplains(t, u, later);
    }
  }

  lemma RetiredMoves(t: Tables, app: Id, status: Status, later: int, u: Tables, row: Row)
    requires app in t.rows && InUse(t.rows[app].status) && !InUse(status) && u == Retired(t, app, status, later)
    requires row == Renewed(t, app, t.rows[app].(status := status, scopes := [], capabilities := []), later)
    ensures Moves(t, u, app, row) && u.requests == t.requests
  {
    hide CapabilityBusy, BindingBusy, RevokeTokens;
  }

  lemma UninstallEffect(t: Tables, owner: Owner, key: string, id: Id, later: int, now: int, u: Tables) returns (e: Effect)
    requires TablesInv(t, now) && now <= later && u == UninstallAccess(t, owner, key, id, later).0
    ensures Explains(e, t, u, later) && RequestsMatch(u.requests, u.consumptions)
    ensures !e.Tending? && (e.Moving? ==> e.app in t.rows && InUse(t.rows[e.app].status)) && !e.Deciding?
    ensures e.Moving? ==> !InUse(e.row.status)
    ensures e.Moving? && e.row.status.Uninstalled? ==> t.rows[e.app].id in t.consumptions && !t.consumptions[t.rows[e.app].id].release.profile.LocalRemote?
    ensures !e.Installing?
  {
    hide Kernel, Replayed, Retired, Explains, Moves, RequestsMatch, Drifted;
    e := Nothing;
    if u != t {
      var v := ReadAccess(t, owner, id).value;
      var at := OwnerKey(owner, key);
      var r := AccessRequest(ActionBody(Uninstall, id), id, None);
      if InUse(v.status) {
        var app := ViewIsRow(t, owner, id, now);
        var status := if v.release.profile.LocalRemote? then Disabling else Uninstalled;
        var w := Retired(t, app, status, later);
        var row := Renewed(t, app, t.rows[app].(status := status, scopes := [], capabilities := []), later);
        RetiredMoves(t, app, status, later, w, row);
        e := Moving(app, row);
        SaveRequestMoves(t, w, app, row, u, later);
        RequestAdded(t, u, at, r);
      } else {
        NothingExplains(t, u, later);
        RequestAdded(t, u, at, r);
      }
    } else {
      NothingExplains(t, u, later);
    }
  }

  lemma NotBusyElsewhere(rows: map<Id, Row>, app: Id, capabilities: seq<string>)
    requires UniqueIds(rows) && app in rows && !AppBusy(rows, app, capabilities)
    ensures !CapabilityBusy(rows, rows[app].id, capabilities)
  {
  }

  // The row goes on, or a new installation of the direct path takes its place.
  ghost predicate Upserts(t: Tables, app: Id, next: Row) {
    if app !in t.rows then Unheard(t, next.id) && next.status.Pending?
    else if t.rows[app].status.Uninstalled? then t.rows[app].intent == "" && Unheard(t, next.id) && next.status.Pending?
    else
      var o := t.rows[app];
      && next.id == o.id && next.version == o.version && Phase(o.status) < Phase(next.status)
      && (next.status.Active? ==> next.scopes == o.scopes && next.capabilities == o.capabilities && o.intent == "")
      && (!next.status.Active? ==> next.scopes == [] && next.capabilities == [])
  }

  lemma PutMoves(t: Tables, app: Id, next: Row, now: int, u: Tables, row: Row)
    requires UniqueIds(t.rows) && RowsMatch(t.rows, t.consumptions) && t.grants.Keys == t.consumptions.Keys
    requires Upserts(t, app, next) && app in t.rows && !t.rows[app].status.Uninstalled?
    requires next.status.Active? ==> !AppBusy(t.rows, app, next.capabilities)
    requires u == Announce(PutRow(t, app, next.(intent := t.rows[app].intent), now), next.id, next.status)
    requires row == Renewed(t, app, next.(intent := t.rows[app].intent), now)
    ensures Moves(t, u, app, row) && u.requests == t.requests
  {
    hide CapabilityBusy, BindingBusy, RevokeTokens, AppBusy, Unheard, Routed;
    if next.status.Active? {
      NotBusyElsewhere(t.rows, app, next.capabilities);
    }
  }

  lemma PutInstalls(t: Tables, app: Id, next: Row, now: int, u: Tables, row: Row)
    requires Upserts(t, app, next) && (app in t.rows ==> t.rows[app].status.Uninstalled?)
    requires u == Announce(PutRow(t, app, next.(intent := ""), now), next.id, next.status)
    requires row == Renewed(t, app, next.(intent := ""), now)
    ensures Installs(t, u, app, row) && u.requests == t.requests
  {
    hide Revoke, Unheard, Agreed;
  }

  lemma GrantKeys(t: Tables)
    requires GrantsMatch(t.rows, t.consumptions, t.grants)
    ensures t.grants.Keys == t.consumptions.Keys
  {
    hide Held, GrantFor;
  }

  // The upsert and its notice, under the receipt.
  lemma ChangeShape(t: Tables, at: DirectKey, body: DirectBody, app: Id, next: Row, now: int, u: Tables)
    requires u == Change(t, at, body, app, next, true, now).0
    ensures var row := next.(intent := if app in t.rows then t.rows[app].intent else "");
            u == t || (u == Announce(PutRow(t, app, row, now), next.id, next.status).(receipts := u.receipts) && (next.status.Active? ==> !AppBusy(t.rows, app, next.capabilities)))
  {
    hide AppBusy, UpdateRow, Renewed;
    PutKeepsReceipts(t, app, next.(intent := if app in t.rows then t.rows[app].intent else ""), now);
  }

  lemma ChangeEffect(t: Tables, at: DirectKey, body: DirectBody, app: Id, next: Row, now: int, u: Tables) returns (e: Effect)
    requires TablesInv(t, now) && u == Change(t, at, body, app, next, true, now).0
    requires Upserts(t, app, next)
    ensures Explains(e, t, u, now) && RequestsMatch(u.requests, u.consumptions)
    ensures !e.Tending? && (e.Moving? ==> e.app == app && app in t.rows && !t.rows[app].status.Uninstalled?) && !e.Deciding?
    ensures e.Moving? ==> e.row.status == next.status
    ensures e.Installing? ==> e.app == app && e.row.intent == "" && (app in t.rows ==> t.rows[app].status.Uninstalled?)
  {
    hide GrantsMatch, TokensMatch, RoutesApart, BindingsApart, ConsentsMatch, NoticesMatch, IntentsMatch, DecisionsMatch, AppBusy, Change, PutRow, Announce, Explains, Moves, Installs, RequestsMatch, Unheard, RowsMatch, UniqueIds, Renewed;
    e := Nothing;
    var row := next.(intent := if app in t.rows then t.rows[app].intent else "");
    ChangeShape(t, at, body, app, next, now, u);
    GrantKeys(t);
    if u != t {
      var w := Announce(PutRow(t, app, row, now), next.id, next.status);
      var put := Renewed(t, app, row, now);
      if app in t.rows && !t.rows[app].status.Uninstalled? {
        PutMoves(t, app, next, now, w, put);
        ReceiptMoves(t, w, app, put, u, now);
        RenewedKeepsIntent(t, app, row, now);
        e := Moving(app, put);
      } else {
        assert row == next.(intent := "");
        PutInstalls(t, app, next, now, w, put);
        RenewedKeepsIntent(t, app, row, now);
        ReceiptInstalls(t, w, app, put, u, now);
        e := Installing(app, put);
      }
    } else {
      NothingExplains(t, u, now);
    }
  }

  // The trigger touches grants and tokens only.
  lemma TriggerTouches(t: Tables, id: Id)
    ensures var u := Revoke(t, id); u == t.(grants := u.grants, tokens := u.tokens)
  {
    hide RevokeTokens;
  }

  lemma PutKeepsReceipts(t: Tables, app: Id, row: Row, now: int)
    ensures PutRow(t, app, row, now).receipts == t.receipts
  {
    hide Renewed, Revoke;
    if app in t.rows {
      TriggerTouches(t.(rows := t.rows[app := Renewed(t, app, row, now)]), t.rows[app].id);
    }
  }

  lemma RenewedKeepsIntent(t: Tables, app: Id, row: Row, now: int)
    ensures Renewed(t, app, row, now).intent == row.intent && Renewed(t, app, row, now).status == row.status
  {
  }

  lemma ReceiptMoves(t: Tables, w: Tables, app: Id, row: Row, u: Tables, now: int)
    requires RequestsMatch(t.requests, t.consumptions) && w.requests == t.requests
    requires Moves(t, w, app, row) && u == w.(receipts := u.receipts)
    ensures Explains(Moving(app, row), t, u, now) && RequestsMatch(u.requests, u.consumptions)
  {
    hide CapabilityBusy, BindingBusy, RevokeTokens, Installs, Tends, Issues, Decides;
  }

  lemma ReceiptInstalls(t: Tables, w: Tables, app: Id, row: Row, u: Tables, now: int)
    requires RequestsMatch(t.requests, t.consumptions) && w.requests == t.requests && row.intent == ""
    requires Installs(t, w, app, row) && u == w.(receipts := u.receipts)
    ensures Explains(Installing(app, row), t, u, now) && RequestsMatch(u.requests, u.consumptions)
  {
    hide Agreed, Unheard, Moves, Tends, Issues, Decides;
  }

  // What a changing transition of the direct path does to the row.
  lemma TransitionUpserts(t: Tables, m: Manifest, action: DirectAction, newId: Id, now: int, next: Row)
    requires Unheard(t, newId) && RowsMatch(t.rows, t.consumptions) && (action.app in t.rows ==> t.rows[action.app].intent == "")
    requires Transition(if action.app in t.rows then Some(t.rows[action.app]) else None, m, action, newId, now) == Ok((next, true))
    ensures Upserts(t, action.app, next)
    ensures action.app in t.rows && !t.rows[action.app].status.Uninstalled? ==> InUse(t.rows[action.app].status)
    ensures next.status.Uninstalled? ==> action.Remove? && !m.profile.LocalRemote?
    ensures next.status.Active? ==> action.Start?
  {
    hide Unheard, Distinct, Routed;
  }

  // A request of the direct path is refused, only recorded, or changes the row.
  lemma DirectShape(t: Tables, user: Id, key: string, action: DirectAction, m: Result<Manifest>, ready: Result<()>, newId: Id, now: int, u: Tables) returns (next: Option<Row>)
    requires u == DirectRun(t, user, key, action, m, ready, newId, now).0
    ensures next.None? ==> u == t.(receipts := u.receipts)
    ensures next.Some? ==>
              && m.Ok? && (action.app in t.rows ==> t.rows[action.app].intent == "")
              && Transition(if action.app in t.rows then Some(t.rows[action.app]) else None, m.value, action, newId, now) == Ok((next.value, true))
              && u == Change(t, DirectKey(user, key), Act(action), action.app, next.value, true, now).0
              && (action.Start? && m.value.profile.LocalRemote? ==> ready.Ok?)
  {
    hide Transition, PutRow, AppBusy;
    next := None;
    if u != t {
      var moved := Transition(if action.app in t.rows then Some(t.rows[action.app]) else None, m.value, action, newId, now).value;
      if moved.1 {
        next := Some(moved.0);
      }
    }
  }

  lemma DirectEffect(t: Tables, user: Id, key: string, action: DirectAction, m: Result<Manifest>, ready: Result<()>, newId: Id, now: int, u: Tables) returns (e: Effect)
    requires TablesInv(t, now) && Unheard(t, newId) && u == DirectRun(t, user, key, action, m, ready, newId, now).0
    ensures Explains(e, t, u, now) && RequestsMatch(u.requests, u.consumptions)
    ensures !e.Tending? && !e.Deciding? && (e.Moving? ==> e.app == action.app && e.app in t.rows && InUse(t.rows[e.app].status) && t.rows[e.app].intent == "")
    ensures e.Moving? && e.row.status.Uninstalled? ==> action.Remove? && m.Ok? && !m.value.profile.LocalRemote?
    ensures e.Moving? && e.row.status.Active? ==> action.Start? && m.Ok? && (m.value.profile.LocalRemote? ==> ready.Ok?)
    ensures e.Installing? ==> e.app == action.app && m.Ok?
  {
    hide UniqueIds, RowsMatch, GrantsMatch, TokensMatch, RoutesApart, BindingsApart, ConsentsMatch, NoticesMatch, IntentsMatch, DecisionsMatch, RequestsMatch, Unheard, Explains, DirectRun, Transition, Change, Upserts;
    e := Nothing;
    var next := DirectShape(t, user, key, action, m, ready, newId, now, u);
    if next.Some? {
      TransitionUpserts(t, m.value, action, newId, now, next.value);
      e := ChangeEffect(t, DirectKey(user, key), Act(action), action.app, next.value, now, u);
    } else {
      ReceiptIsNothing(t, u, DirectKey(user, key), now);
    }
  }

  lemma ReceiptIsNothing(t: Tables, u: Tables, at: DirectKey, now: int)
    requires RequestsMatch(t.requests, t.consumptions) && u == t.(receipts := u.receipts)
    ensures Explains(Nothing, t, u, now) && RequestsMatch(u.requests, u.consumptions)
  {
  }

  lemma CompleteEffect(t: Tables, c: Cleanup, now: int, u: Tables) returns (e: Effect)
    requires TablesInv(t, now) && u == CompleteCleanup(t, c, now).0
    ensures Explains(e, t, u, now) && RequestsMatch(u.requests, u.consumptions)
    ensures !e.Tending? && (e.Moving? ==> Cleanable(t, c) && e.app == c.app) && !e.Deciding?
    ensures !e.Installing?
  {
    hide UniqueIds, GrantsMatch, TokensMatch, RoutesApart, BindingsApart, ConsentsMatch, NoticesMatch, IntentsMatch, DecisionsMatch, RequestsMatch, Change, Explains, Unheard, Routed;
    e := Nothing;
    if CleanupKey(c) !in t.receipts && Cleanable(t, c) {
      e := ChangeEffect(t, CleanupKey(c), CleanUp(c.id), c.app, t.rows[c.app].(status := Uninstalled), now, u);
    } else {
      ReceiptIsNothing(t, u, CleanupKey(c), now);
    }
  }

  lemma UpdateTends(t: Tables, app: Id, cleanup: Recovery, u: Tables, now: int)
    requires RequestsMatch(t.requests, t.consumptions)
    requires app in t.rows && t.rows[app].status.Disabling? && u == UpdateRow(t, app, t.rows[app].(cleanup := cleanup)) && t.rows[app].cleanup.revision < cleanup.revision
    ensures app in u.rows && u.rows[app].cleanup == cleanup && Explains(Tending(app, u.rows[app]), t, u, now) && RequestsMatch(u.requests, u.consumptions)
  {
    hide RevokeTokens, Moves, Installs, Issues, Decides;
  }

  lemma FailureEffect(t: Tables, c: Cleanup, now: int, u: Tables) returns (e: Effect)
    requires TablesInv(t, now) && u == RecordFailure(t, c, now)
    ensures Explains(e, t, u, now) && RequestsMatch(u.requests, u.consumptions)
    ensures !e.Moving? && (e.Tending? ==> Holder(t.rows, c.id) == Some(e.app) && e.app in t.rows && t.rows[e.app].cleanup.revision == c.revision && e.row.cleanup.attempts == t.rows[e.app].cleanup.attempts + 1)
    ensures !e.Deciding?
    ensures !e.Installing?
  {
    hide Kernel, UpdateRow, Explains, RequestsMatch, Backoff;
    e := Nothing;
    var app := Holder(t.rows, c.id);
    if app.Some? && t.rows[app.value].status.Disabling? && t.rows[app.value].cleanup.revision == c.revision {
      var row := t.rows[app.value];
      UpdateTends(t, app.value, Recovery(row.cleanup.attempts + 1, now + Backoff(c.attempts + 1), row.cleanup.revision + 1), u, now);
      e := Tending(app.value, u.rows[app.value]);
    } else {
      NothingExplains(t, u, now);
    }
  }

  lemma RetryEffect(t: Tables, id: Id, expected: Option<nat>, now: int, u: Tables) returns (e: Effect)
    requires TablesInv(t, now) && RetryCleanup(t, id, expected, now) == Ok(u)
    ensures Explains(e, t, u, now) && RequestsMatch(u.requests, u.consumptions)
    ensures !e.Moving? && (e.Tending? ==> e.row.cleanup.attempts == 0) && !e.Deciding?
    ensures !e.Installing?
  {
    hide Kernel, UpdateRow, Explains, RequestsMatch;
    var app := Holder(t.rows, id).value;
    UpdateTends(t, app, Recovery(0, now, t.rows[app].cleanup.revision + 1), u, now);
    e := Tending(app, u.rows[app]);
  }
}
