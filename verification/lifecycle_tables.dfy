// The installation tables of one tenant and the transactions on them. All of them
// run under the tenant's lifecycle lock, so each is one step.
module LifecycleTables {
  import opened Base
  import opened Consent

  datatype Status = Pending | Active | Disabling | Uninstalled

  // Cleanup bookkeeping: every write to the attempts also advances the revision.
  datatype Recovery = Recovery(attempts: nat, nextAt: int, revision: nat)

  // One row per app. `intent` is empty for rows of the direct path.
  datatype Row = Row(
    id: Id, version: string, status: Status, scopes: seq<string>, capabilities: seq<string>,
    installedAt: int, intent: Id, cleanup: Recovery)

  datatype Consumption = Consumption(intent: Id, owner: Owner, release: Release, digest: Digest, consumedAt: int)

  datatype GrantState = Waiting | Granted | Revoked
  datatype Grant = Grant(state: GrantState, scopes: seq<string>)

  // A token's id stands for its hash as well: both are new with every token.
  datatype AppToken = AppToken(installation: Id, createdAt: int, expiresAt: int, revoked: bool)

  datatype OwnerKey = OwnerKey(owner: Owner, key: string)

  // Request bodies stand for their hashes.
  datatype IntentBody = PrepareBody(app: Id, version: string) | DecideBody(id: Id, digest: Digest, consent: bool)
  datatype IntentRequest = IntentRequest(body: IntentBody, intent: Id)

  datatype Action = Activate | IssueToken | Uninstall
  datatype AccessBody = ConsumeBody(intent: Id, digest: Digest) | ActionBody(action: Action, installation: Id)
  datatype AccessRequest = AccessRequest(body: AccessBody, installation: Id, token: Option<Id>)

  // The granted scopes come in any order: what counts of a request, and what its hash
  // covers, is how often each is named.
  datatype DirectAction = Install(app: Id, version: string, grants: multiset<string>) | Start(app: Id) | Remove(app: Id)
  datatype DirectBody = Act(action: DirectAction) | CleanUp(id: Id)
  datatype DirectKey = DirectKey(user: Id, key: string)
  datatype DirectReceipt = DirectReceipt(body: DirectBody, installation: Id, status: Status)

  // The outbox of the lifecycle: installed, activated, disabling, uninstalled.
  datatype Notice = Notice(installation: Id, status: Status)

  datatype Tables = Tables(
    intents: map<Id, Intent>,
    intentRequests: map<OwnerKey, IntentRequest>,
    rows: map<Id, Row>,
    consumptions: map<Id, Consumption>,
    grants: map<Id, Grant>,
    tokens: map<Id, AppToken>,
    requests: map<OwnerKey, AccessRequest>,
    receipts: map<DirectKey, DirectReceipt>,
    notices: seq<Notice>)

  const EMPTY := Tables(map[], map[], map[], map[], map[], map[], map[], map[], [])
  const TOKEN_TTL := 900

  // ------------------------------------------------------------------- lookups

  // The app whose row holds this installation id.
  ghost function Holder(rows: map<Id, Row>, id: Id): (app: Option<Id>)
    ensures app.Some? ==> app.value in rows && rows[app.value].id == id
    ensures app.None? ==> forall a :: a in rows ==> rows[a].id != id
  {
    if a :| a in rows && rows[a].id == id then Some(a) else None
  }

  // A retired id, replaced by a reinstallation, reads as uninstalled.
  ghost function StatusOf(rows: map<Id, Row>, id: Id): Status {
    var app := Holder(rows, id);
    if app.Some? then rows[app.value].status else Uninstalled
  }

  datatype View = View(intent: Id, release: Release, digest: Digest, consumedAt: int, status: Status, grant: Grant)

  // access: the owner's view, refused when the row has drifted from the consent.
  ghost function ReadAccess(t: Tables, owner: Owner, id: Id): Result<View> {
    if id !in t.consumptions || id !in t.grants || t.consumptions[id].owner != owner then Err(NotFound)
    else
      var c := t.consumptions[id];
      var app := Holder(t.rows, id);
      if app.Some? && (t.rows[app.value].status.Pending? || t.rows[app.value].status.Active?) && Drifted(app.value, t.rows[app.value], c) then Err(Forbidden)
      else Ok(View(c.intent, c.release, c.digest, c.consumedAt, StatusOf(t.rows, id), t.grants[id]))
  }

  predicate Drifted(app: Id, row: Row, c: Consumption) {
    app != c.release.app || row.version != c.release.version || row.intent != c.intent || row.scopes != c.release.scopes || row.capabilities != Routed(c.release)
  }

  // activeGrant: rows of the consent path need an active grant with their scopes.
  predicate HasActiveGrant(t: Tables, row: Row) {
    row.intent == "" ||
    (row.id in t.grants && row.id in t.consumptions && t.consumptions[row.id].intent == row.intent
     && t.grants[row.id].state.Granted? && t.grants[row.id].scopes == row.scopes)
  }

  // ------------------------------------------------------------- row writes

  function RevokeTokens(tokens: map<Id, AppToken>, id: Id): map<Id, AppToken> {
    map k | k in tokens :: if tokens[k].installation == id then tokens[k].(revoked := true) else tokens[k]
  }

  // The trigger on installations: leaving service revokes grant and tokens of the
  // old id in the same statement.
  function Revoke(t: Tables, id: Id): Tables {
    t.(grants := if id in t.grants then t.grants[id := Grant(Revoked, [])] else t.grants,
       tokens := RevokeTokens(t.tokens, id))
  }

  function UpdateRow(t: Tables, app: Id, row: Row): Tables
    requires app in t.rows
  {
    var u := t.(rows := t.rows[app := row]);
    if row.status.Disabling? || row.status.Uninstalled? then Revoke(u, t.rows[app].id) else u
  }

  // Every status write starts cleanup over; the revision of the app's row goes on.
  function Renewed(t: Tables, app: Id, row: Row, now: int): Row {
    row.(cleanup := Recovery(0, now, if app in t.rows then t.rows[app].cleanup.revision + 1 else 0))
  }

  // INSERT ... ON CONFLICT(app) DO UPDATE
  function PutRow(t: Tables, app: Id, row: Row, now: int): Tables {
    if app in t.rows then UpdateRow(t, app, Renewed(t, app, row, now))
    else t.(rows := t.rows[app := Renewed(t, app, row, now)])
  }

  function Announce(t: Tables, id: Id, status: Status): Tables {
    t.(notices := t.notices + [Notice(id, status)])
  }

  // ------------------------------------------------------------- consent path

  // Prepare. `release` is what the registry answers.
  function Prepare(t: Tables, owner: Owner, key: string, app: Id, version: string, release: Result<Release>, newId: Id, now: int, later: int): (Tables, Result<Id>) {
    var at := OwnerKey(owner, key);
    var body := PrepareBody(app, version);
    if at in t.intentRequests then (t, if t.intentRequests[at].body == body then Ok(t.intentRequests[at].intent) else Err(Conflict))
    else if release.Err? then (t, Err(release.fault))
    else
      var i := NewIntent(owner, release.value, now);
      if !Live(i, later) then (t, Err(Conflict))
      else if newId in t.intents then (t, Err(Unavailable))
      else (t.(intents := t.intents[newId := i], intentRequests := t.intentRequests[at := IntentRequest(body, newId)]), Ok(newId))
  }

  // Decide, with the second expiry check after the registry was asked.
  function DecideIntent(t: Tables, owner: Owner, key: string, id: Id, digest: Digest, consent: bool, current: Result<Release>, now: int, later: int): (Tables, Result<Id>) {
    var at := OwnerKey(owner, key);
    var body := DecideBody(id, digest, consent);
    if at in t.intentRequests then (t, if t.intentRequests[at].body == body then Ok(t.intentRequests[at].intent) else Err(Conflict))
    else if id !in t.intents || t.intents[id].owner != owner then (t, Err(NotFound))
    else
      var i := t.intents[id];
      match Decide(id, i, digest, consent, now)
      case Err(f) => (t, Err(f))
      case Ok(decision) =>
        if consent && current.Err? then (t, Err(current.fault))
        else if consent && current.value != i.release then (t, Err(Conflict))
        else if !Live(i, later) then (t, Err(Conflict))
        else (t.(intents := t.intents[id := i.(state := decision, decidedAt := Some(later))], intentRequests := t.intentRequests[at := IntentRequest(body, id)]), Ok(id))
  }

  ghost function Replayed(t: Tables, owner: Owner, at: OwnerKey, body: AccessBody): Result<View>
    requires at in t.requests
  {
    if t.requests[at].body != body then Err(Conflict) else ReadAccess(t, owner, t.requests[at].installation)
  }

  datatype TokenView = TokenView(id: Id, expiresAt: int, revoked: bool)

  // The token a recorded request answers with, as it stands now.
  function RecordedToken(t: Tables, at: OwnerKey, now: int): Result<Option<TokenView>> {
    if at !in t.requests || t.requests[at].token.None? then Ok(None)
    else
      var q := t.requests[at];
      if q.token.value !in t.tokens || t.tokens[q.token.value].installation != q.installation then Err(Unavailable)
      else
        var k := t.tokens[q.token.value];
        Ok(Some(TokenView(q.token.value, k.expiresAt, k.revoked || k.expiresAt <= now)))
  }

  predicate Consumed(t: Tables, intent: Id) {
    exists k :: k in t.consumptions && t.consumptions[k].intent == intent
  }

  // Consume: the consent becomes a pending installation. `now` is the clock before
  // the policy work, `later` the clock before the writes.
  ghost function Consume(t: Tables, owner: Owner, key: string, id: Id, digest: Digest, current: Result<Release>, special: Result<()>, newId: Id, now: int, later: int): (Tables, Result<View>) {
    var at := OwnerKey(owner, key);
    var body := ConsumeBody(id, digest);
    if at in t.requests then (t, Replayed(t, owner, at, body))
    else if id !in t.intents || t.intents[id].owner != owner then (t, Err(NotFound))
    else
      var i := t.intents[id];
      if Consumed(t, id) then (t, Err(Conflict))
      else if !i.state.Consented? || !Live(i, now) || digest != DigestOf(id, i) then (t, Err(Conflict))
      else if Eligible(i.release, current, special).Err? then (t, Err(Eligible(i.release, current, special).fault))
      else if !Live(i, later) then (t, Err(Conflict))
      else if i.release.app in t.rows && !t.rows[i.release.app].status.Uninstalled? then (t, Err(Conflict))
      else (Bind(t, at, body, owner, id, newId, later), Ok(View(id, i.release, DigestOf(id, i), later, Pending, Grant(Waiting, []))))
  }

  // The row a consumption creates.
  function ConsentedRow(i: Intent, id: Id, newId: Id, later: int): Row {
    Row(newId, i.release.version, Pending, i.release.scopes, Routed(i.release), later, id, Recovery(0, later, 0))
  }

  function Bind(t: Tables, at: OwnerKey, body: AccessBody, owner: Owner, id: Id, newId: Id, later: int): Tables
    requires id in t.intents
  {
    var i := t.intents[id];
    var u := t.(consumptions := t.consumptions[newId := Consumption(id, owner, i.release, DigestOf(id, i), later)]);
    var v := PutRow(u, i.release.app, ConsentedRow(i, id, newId, later), later);
    Announce(v.(grants := v.grants[newId := Grant(Waiting, [])], requests := v.requests[at := AccessRequest(body, newId, None)]), newId, Pending)
  }

  // ----------------------------------------------------- activate, token, uninstall

  // What eligible access needs before activation or a token: state and grant agree.
  function Usable(v: View, current: Result<Release>, special: Result<()>): Result<()> {
    if Eligible(v.release, current, special).Err? then Err(Eligible(v.release, current, special).fault)
    else if !v.status.Pending? && !v.status.Active? then Err(Conflict)
    else if v.grant.state.Revoked? then Err(Forbidden)
    else if (v.status.Active? && !v.grant.state.Granted?) || (v.status.Pending? && !v.grant.state.Waiting?) then Err(Forbidden)
    else Ok(())
  }

  // The readiness of what the profile depends on.
  function Ready(r: Release, ready: Result<()>): Result<()> {
    if ShippingProvider(r.profile) && r.binding.None? then Err(Unavailable)
    else if r.profile.LocalRemote? || r.profile.KurirFixture? || ShippingProvider(r.profile) then ready
    else Ok(())
  }

  // Another active managed or provider installation uses the same binding.
  predicate BindingBusy(t: Tables, id: Id, b: Option<Binding>) {
    b.Some? && exists a :: a in t.rows && t.rows[a].id != id && t.rows[a].status.Active? && t.rows[a].id in t.consumptions
                           && Engine(t.consumptions[t.rows[a].id].release.profile) && t.consumptions[t.rows[a].id].release.binding == b
  }

  // Another active installation routes one of these capabilities.
  predicate CapabilityBusy(rows: map<Id, Row>, id: Id, capabilities: seq<string>) {
    exists a, i :: a in rows && 0 <= i < |capabilities| && rows[a].id != id && rows[a].status.Active? && capabilities[i] in rows[a].capabilities
  }

  function SaveRequest(t: Tables, at: OwnerKey, body: AccessBody, id: Id, token: Option<Id>): Tables {
    t.(requests := t.requests[at := AccessRequest(body, id, token)])
  }

  ghost function ActivateAccess(t: Tables, owner: Owner, key: string, id: Id, current: Result<Release>, special: Result<()>, ready: Result<()>, later: int): (Tables, Result<View>) {
    var at := OwnerKey(owner, key);
    var body := ActionBody(Activate, id);
    if at in t.requests then (t, Replayed(t, owner, at, body))
    else
      match ReadAccess(t, owner, id)
      case Err(f) => (t, Err(f))
      case Ok(v) =>
        if Usable(v, current, special).Err? then (t, Err(Usable(v, current, special).fault))
        else if Ready(v.release, ready).Err? then (t, Err(Ready(v.release, ready).fault))
        else
          var w := v.(status := Active, grant := Grant(Granted, v.release.scopes));
          if v.status.Active? then (SaveRequest(t, at, body, id, None), Ok(w))
          else if Engine(v.release.profile) && BindingBusy(t, id, v.release.binding) then (t, Err(Conflict))
          else if CapabilityBusy(t.rows, id, Routed(v.release)) then (t, Err(Conflict))
          else if Holder(t.rows, id).None? then (t, Err(Conflict))
          else (SaveRequest(Activated(t, Holder(t.rows, id).value, v.release, later), at, body, id, None), Ok(w))
  }

  function Activated(t: Tables, app: Id, r: Release, later: int): Tables
    requires app in t.rows
  {
    var row := t.rows[app];
    var u := t.(grants := if row.id in t.grants && t.grants[row.id].state.Waiting? then t.grants[row.id := Grant(Granted, r.scopes)] else t.grants);
    Announce(UpdateRow(u, app, Renewed(t, app, row.(status := Active, scopes := r.scopes, capabilities := Routed(r)), later)), row.id, Active)
  }

  // The resource, UI and provider policies have no installation token.
  predicate Tokenless(r: Release) {
    r.policy.ResourceApp? || r.policy.EmbeddedPilot? || r.policy.ReviewedUi? || ShippingProvider(r.profile)
  }

  ghost function IssueAppToken(t: Tables, owner: Owner, key: string, id: Id, current: Result<Release>, special: Result<()>, tokenId: Id, later: int): (Tables, Result<View>) {
    var at := OwnerKey(owner, key);
    var body := ActionBody(IssueToken, id);
    if at in t.requests then (t, Replayed(t, owner, at, body))
    else
      match ReadAccess(t, owner, id)
      case Err(f) => (t, Err(f))
      case Ok(v) =>
        if Usable(v, current, special).Err? then (t, Err(Usable(v, current, special).fault))
        else if Tokenless(v.release) then (t, Err(Forbidden))
        else if !v.status.Active? || !v.grant.state.Granted? || v.grant.scopes != v.release.scopes then (t, Err(Conflict))
        else if tokenId in t.tokens then (t, Err(Unavailable))
        else (SaveRequest(t.(tokens := RevokeTokens(t.tokens, id)[tokenId := AppToken(id, later, later + TOKEN_TTL, false)]), at, body, id, Some(tokenId)), Ok(v))
  }

  // Always possible, whatever became of the release.
  ghost function UninstallAccess(t: Tables, owner: Owner, key: string, id: Id, later: int): (Tables, Result<View>) {
    var at := OwnerKey(owner, key);
    var body := ActionBody(Uninstall, id);
    if at in t.requests then (t, Replayed(t, owner, at, body))
    else
      match ReadAccess(t, owner, id)
      case Err(f) => (t, Err(f))
      case Ok(v) =>
        if v.status.Uninstalled? || v.status.Disabling? then (SaveRequest(t, at, body, id, None), Ok(v))
        else if Holder(t.rows, id).None? then (t, Err(Conflict))
        else
          var status := if v.release.profile.LocalRemote? then Disabling else Uninstalled;
          (SaveRequest(Retired(t, Holder(t.rows, id).value, status, later), at, body, id, None), Ok(v.(status := status, grant := Grant(Revoked, []))))
  }

  function Retired(t: Tables, app: Id, status: Status, later: int): Tables
    requires app in t.rows
  {
    var row := t.rows[app];
    Announce(UpdateRow(t, app, Renewed(t, app, row.(status := status, scopes := [], capabilities := []), later)), row.id, status)
  }

  // WithAppAccess: is this token good for this app and installation now?
  ghost function CheckToken(t: Tables, token: Id, app: Id, id: Id, current: Result<Release>, special: Result<()>, now: int, later: int): Result<View> {
    if !(token in t.tokens && t.tokens[token].installation == id && !t.tokens[token].revoked && now < t.tokens[token].expiresAt) then Err(Unauthenticated)
    else if !(app in t.rows && t.rows[app].id == id && t.rows[app].status.Active?) then Err(Unauthenticated)
    else if !(id in t.consumptions && id in t.grants && t.grants[id].state.Granted? && t.grants[id].scopes == t.rows[app].scopes) then Err(Unauthenticated)
    else
      match ReadAccess(t, t.consumptions[id].owner, id)
      case Err(f) => Err(f)
      case Ok(v) =>
        if v.grant.scopes != v.release.scopes then Err(Forbidden)
        else if Eligible(v.release, current, special).Err? then Err(Eligible(v.release, current, special).fault)
        else if later < t.tokens[token].expiresAt then Ok(v)
        else Err(Unauthenticated)
  }

  // ------------------------------------------------------------------ direct path

  datatype Manifest = Manifest(app: Id, version: string, scopes: seq<string>, capabilities: seq<string>, profile: Profile)

  predicate Distinct(s: seq<string>) {
    forall i, j :: 0 <= i < j < |s| ==> s[i] != s[j]
  }

  // The pure state machine of the direct path: the next row, and whether it changed.
  function Transition(current: Option<Row>, m: Manifest, action: DirectAction, newId: Id, now: int): Result<(Row, bool)> {
    match action
    case Install(_, version, grants) =>
      if version != m.version || !Distinct(m.scopes) || (set s | s in grants) != (set s | s in m.scopes) then Err(Invalid)
      else if current.Some? && !current.value.status.Uninstalled? then Ok((current.value, false))
      else Ok((Row(newId, m.version, Pending, m.scopes, m.capabilities, now, "", Recovery(0, now, 0)), true))
    case Start(_) =>
      if current.None? || current.value.status.Uninstalled? || current.value.status.Disabling? then Err(NotFound)
      else if current.value.version != m.version || current.value.scopes != m.scopes then Err(Forbidden)
      else if current.value.status.Active? then Ok((current.value, false))
      else Ok((current.value.(status := Active), true))
    case Remove(_) =>
      if current.None? then Ok((Row("", m.version, Uninstalled, [], [], now, "", Recovery(0, now, 0)), false))
      else if current.value.status.Uninstalled? || current.value.status.Disabling? then Ok((current.value, false))
      else Ok((current.value.(status := if m.profile.LocalRemote? then Disabling else Uninstalled, scopes := [], capabilities := []), true))
  }

  function Change(t: Tables, at: DirectKey, body: DirectBody, app: Id, next: Row, changed: bool, now: int): (Tables, Result<DirectReceipt>) {
    var receipt := DirectReceipt(body, next.id, next.status);
    if !changed then (t.(receipts := t.receipts[at := receipt]), Ok(receipt))
    else if next.status.Active? && AppBusy(t.rows, app, next.capabilities) then (t, Err(Conflict))
    else
      var row := if app in t.rows then next.(intent := t.rows[app].intent) else next.(intent := "");
      var u := PutRow(t, app, row, now);
      (Announce(u.(receipts := u.receipts[at := receipt]), next.id, next.status), Ok(receipt))
  }

  predicate AppBusy(rows: map<Id, Row>, app: Id, capabilities: seq<string>) {
    exists a, i :: a in rows && 0 <= i < |capabilities| && a != app && rows[a].status.Active? && capabilities[i] in rows[a].capabilities
  }

  function DirectRun(t: Tables, user: Id, key: string, action: DirectAction, m: Result<Manifest>, ready: Result<()>, newId: Id, now: int): (Tables, Result<DirectReceipt>) {
    var at := DirectKey(user, key);
    if m.Err? then (t, Err(m.fault))
    else if m.value.profile.KurirFixture? || m.value.profile.ShippingFixture? then (t, Err(Forbidden))
    else if at in t.receipts then (t, if t.receipts[at].body == Act(action) then Ok(t.receipts[at]) else Err(Conflict))
    else
      var current := if action.app in t.rows then Some(t.rows[action.app]) else None;
      var connects := action.Start? && m.value.profile.LocalRemote?;
      if current.Some? && current.value.intent != "" then (t, Err(Forbidden))
      else if connects && (current.None? || !(current.value.status.Pending? || current.value.status.Active?)) then (t, Err(Conflict))
      else if connects && ready.Err? then (t, Err(ready.fault))
      else
        match Transition(current, m.value, action, newId, now)
        case Err(f) => (t, Err(f))
        case Ok((next, changed)) => Change(t, at, Act(action), action.app, next, changed, now)
  }

  // -------------------------------------------------------------------- cleanup

  // What a worker read about a row waiting for cleanup.
  datatype Cleanup = Cleanup(id: Id, app: Id, attempts: nat, revision: nat)

  function ReadingOf(app: Id, row: Row): Cleanup {
    Cleanup(row.id, app, row.cleanup.attempts, row.cleanup.revision)
  }

  const MAX_ATTEMPTS := 12

  // The worker's selection.
  predicate DueCleanup(row: Row, now: int) {
    row.status.Disabling? && row.cleanup.attempts < MAX_ATTEMPTS && row.cleanup.nextAt <= now
  }

  const SYSTEM := "system-cleanup"

  // The row the worker's transaction finds: disabling, with the id it read.
  predicate Cleanable(t: Tables, c: Cleanup) {
    c.app in t.rows && t.rows[c.app].id == c.id && t.rows[c.app].status.Disabling?
  }

  function CleanupKey(c: Cleanup): DirectKey {
    DirectKey(SYSTEM, "cleanup_" + c.id)
  }

  // The transaction after the remote side has confirmed the revocation.
  function CompleteCleanup(t: Tables, c: Cleanup, now: int): (Tables, Result<DirectReceipt>) {
    var at := CleanupKey(c);
    if at in t.receipts then (t, if t.receipts[at].body == CleanUp(c.id) then Ok(t.receipts[at]) else Err(Conflict))
    else if !Cleanable(t, c) then (t, Err(Conflict))
    else Change(t, at, CleanUp(c.id), c.app, t.rows[c.app].(status := Uninstalled), true, now)
  }

  // One more attempt; the worker waits by the attempts it read.
  function Postponed(r: Recovery, read: nat, now: int): Recovery {
    Recovery(r.attempts + 1, now + Backoff(read + 1), r.revision + 1)
  }

  // A failed revocation costs one attempt, unless someone advanced the revision.
  ghost function RecordFailure(t: Tables, c: Cleanup, now: int): Tables {
    var app := Holder(t.rows, c.id);
    if app.Some? && t.rows[app.value].status.Disabling? && t.rows[app.value].cleanup.revision == c.revision then
      var row := t.rows[app.value];
      UpdateRow(t, app.value, row.(cleanup := Postponed(row.cleanup, c.attempts, now)))
    else t
  }

  // The operator's retry (no expectation) or the owner's (twelve attempts spent,
  // revision as seen).
  ghost function RetryCleanup(t: Tables, id: Id, expected: Option<nat>, now: int): Result<Tables> {
    var app := Holder(t.rows, id);
    if app.None? then Err(NotFound)
    else
      var row := t.rows[app.value];
      if !row.status.Disabling? then Err(if expected.Some? then Conflict else NotFound)
      else if expected.Some? && (row.cleanup.attempts < MAX_ATTEMPTS || row.cleanup.revision != expected.value) then Err(Conflict)
      else Ok(UpdateRow(t, app.value, row.(cleanup := Recovery(0, now, row.cleanup.revision + 1))))
  }
}
