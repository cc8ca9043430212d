// What the installation tables always satisfy, and the few ways any transaction
// changes them.
module LifecycleRules {
  import opened Base
  import opened Consent
  import opened LifecycleTables

  function Phase(s: Status): nat {
    match s
    case Pending => 1
    case Active => 2
    case Disabling => 3
    case Uninstalled => 4
  }

  predicate InUse(s: Status) {
    s.Pending? || s.Active?
  }

  ghost predicate Held(rows: map<Id, Row>, id: Id) {
    exists a :: a in rows && rows[a].id == id
  }

  ghost predicate UniqueIds(rows: map<Id, Row>) {
    forall a, b :: a in rows && b in rows && rows[a].id == rows[b].id ==> a == b
  }

  // A row of the consent path is what its consumption says, as long as it is in
  // use; a row of the direct path has no consumption; a retired row routes nothing.
  ghost predicate RowsMatch(rows: map<Id, Row>, consumptions: map<Id, Consumption>) {
    forall a :: a in rows ==>
      var row := rows[a];
      && (row.intent == "" ==> row.id !in consumptions)
      && (row.intent != "" ==> row.id in consumptions && consumptions[row.id].intent == row.intent && consumptions[row.id].release.app == a && row.version == consumptions[row.id].release.version)
      && (row.intent != "" && InUse(row.status) ==> row.scopes == consumptions[row.id].release.scopes && row.capabilities == Routed(consumptions[row.id].release))
      && (!InUse(row.status) ==> row.scopes == [] && row.capabilities == [])
  }

  // The grant that belongs to an installation in this state.
  function GrantFor(s: Status, r: Release): Grant {
    match s
    case Pending => Grant(Waiting, [])
    case Active => Grant(Granted, r.scopes)
    case _ => Grant(Revoked, [])
  }

  ghost predicate GrantsMatch(rows: map<Id, Row>, consumptions: map<Id, Consumption>, grants: map<Id, Grant>) {
    && grants.Keys == consumptions.Keys
    && (forall a :: a in rows && rows[a].id in consumptions ==> grants[rows[a].id] == GrantFor(rows[a].status, consumptions[rows[a].id].release))
    && (forall id :: id in grants && !Held(rows, id) ==> grants[id] == Grant(Revoked, []))
  }

  // A live token belongs to an active installation of the consent path, and no
  // installation has two.
  ghost predicate Serving(rows: map<Id, Row>, id: Id) {
    exists a :: a in rows && rows[a].id == id && rows[a].status.Active? && rows[a].intent != ""
  }

  ghost predicate TokensMatch(rows: map<Id, Row>, tokens: map<Id, AppToken>) {
    && (forall k :: k in tokens && !tokens[k].revoked ==> Serving(rows, tokens[k].installation))
    && (forall k, l :: k in tokens && l in tokens && !tokens[k].revoked && !tokens[l].revoked && tokens[k].installation == tokens[l].installation ==> k == l)
  }

  // No two active installations route the same capability.
  ghost predicate RoutesApart(rows: map<Id, Row>) {
    forall a, b, c :: a in rows && b in rows && rows[a].status.Active? && rows[b].status.Active? && c in rows[a].capabilities && c in rows[b].capabilities ==> a == b
  }

  ghost predicate Bound(rows: map<Id, Row>, consumptions: map<Id, Consumption>, a: Id, b: Binding) {
    && a in rows && rows[a].status.Active? && rows[a].id in consumptions
    && Engine(consumptions[rows[a].id].release.profile) && consumptions[rows[a].id].release.binding == Some(b)
  }

  // No two active managed or provider installations share a shipping binding.
  ghost predicate BindingsApart(rows: map<Id, Row>, consumptions: map<Id, Consumption>) {
    forall a, b, x :: Bound(rows, consumptions, a, x) && Bound(rows, consumptions, b, x) ==> a == b
  }

  // What an intent looks like at time `now` or later.
  ghost predicate IntentsMatch(intents: map<Id, Intent>, now: int) {
    forall i :: i in intents ==>
      && intents[i].createdAt <= now && intents[i].expiresAt == intents[i].createdAt + TTL
      && (intents[i].state.Undecided? <==> intents[i].decidedAt.None?)
      && (intents[i].decidedAt.Some? ==> intents[i].createdAt <= intents[i].decidedAt.value <= now && intents[i].decidedAt.value < intents[i].expiresAt)
  }

  // `c` was agreed to: one consented intent of the same owner, the very release and
  // digest, decided before it was used, used before it expired.
  ghost predicate Agreed(c: Consumption, intents: map<Id, Intent>) {
    && c.intent in intents && c.intent != ""
    && (var i := intents[c.intent];
        && i.state.Consented? && i.owner == c.owner && i.release == c.release && c.digest == DigestOf(c.intent, i)
        && i.decidedAt.Some? && i.createdAt <= i.decidedAt.value <= c.consumedAt < i.createdAt + TTL)
    && Shaped(c.release)
  }

  ghost predicate ConsentsMatch(intents: map<Id, Intent>, consumptions: map<Id, Consumption>) {
    && (forall k :: k in consumptions ==> Agreed(consumptions[k], intents))
    && (forall k, l :: k in consumptions && l in consumptions && consumptions[k].intent == consumptions[l].intent ==> k == l)
  }

  // The notices tell each installation's life in order and up to date.
  ghost predicate NoticesMatch(rows: map<Id, Row>, consumptions: map<Id, Consumption>, notices: seq<Notice>) {
    && (forall a :: a in rows ==> Notice(rows[a].id, Pending) in notices && Notice(rows[a].id, rows[a].status) in notices)
    && (forall n, a :: n in notices && a in rows && rows[a].id == n.installation ==> Phase(n.status) <= Phase(rows[a].status))
    && (forall n :: n in notices && !Held(rows, n.installation) ==> Notice(n.installation, Uninstalled) in notices)
    && (forall id :: id in consumptions ==> Notice(id, Pending) in notices)
    && Ordered(notices)
  }

  ghost predicate Ordered(notices: seq<Notice>) {
    forall i, j :: 0 <= i < j < |notices| && notices[i].installation == notices[j].installation ==> Phase(notices[i].status) < Phase(notices[j].status)
  }

  // A recorded request belongs to the owner of its consumption and says what was
  // presented: for a consumption, its own intent and digest.
  ghost predicate RequestOf(q: OwnerKey, r: AccessRequest, consumptions: map<Id, Consumption>) {
    && r.installation in consumptions && consumptions[r.installation].owner == q.owner
    && (match r.body
        case ConsumeBody(intent, digest) => consumptions[r.installation].intent == intent && consumptions[r.installation].digest == digest
        case ActionBody(_, installation) => installation == r.installation)
  }

  ghost predicate AskedFor(requests: map<OwnerKey, AccessRequest>, id: Id, c: Consumption) {
    exists q :: q in requests && q.owner == c.owner && requests[q].installation == id && requests[q].body == ConsumeBody(c.intent, c.digest)
  }

  ghost predicate RequestsMatch(requests: map<OwnerKey, AccessRequest>, consumptions: map<Id, Consumption>) {
    && (forall q :: q in requests ==> RequestOf(q, requests[q], consumptions))
    && (forall id :: id in consumptions ==> AskedFor(requests, id, consumptions[id]))
  }

  // A recorded decision is the intent's: by its owner, on its very digest.
  ghost predicate DecisionOf(q: OwnerKey, r: IntentRequest, intents: map<Id, Intent>) {
    && r.intent in intents && intents[r.intent].owner == q.owner
    && (match r.body
        case PrepareBody(app, version) => intents[r.intent].release.app == app && intents[r.intent].release.version == version
        case DecideBody(id, digest, consent) => id == r.intent && digest == DigestOf(id, intents[id]) && intents[id].state == (if consent then Consented else Denied))
  }

  ghost predicate DecidedBy(requests: map<OwnerKey, IntentRequest>, id: Id, i: Intent) {
    exists q :: q in requests && q.owner == i.owner && requests[q] == IntentRequest(DecideBody(id, DigestOf(id, i), i.state.Consented?), id)
  }

  ghost predicate DecisionsMatch(requests: map<OwnerKey, IntentRequest>, intents: map<Id, Intent>) {
    && (forall q :: q in requests ==> DecisionOf(q, requests[q], intents))
    && (forall id :: id in intents && !intents[id].state.Undecided? ==> DecidedBy(requests, id, intents[id]))
  }

  ghost predicate Kernel(t: Tables, now: int) {
    && UniqueIds(t.rows) && RowsMatch(t.rows, t.consumptions) && GrantsMatch(t.rows, t.consumptions, t.grants)
    && TokensMatch(t.rows, t.tokens) && RoutesApart(t.rows) && BindingsApart(t.rows, t.consumptions)
    && IntentsMatch(t.intents, now) && ConsentsMatch(t.intents, t.consumptions)
    && NoticesMatch(t.rows, t.consumptions, t.notices) && DecisionsMatch(t.intentRequests, t.intents)
  }

  ghost predicate TablesInv(t: Tables, now: int) {
    Kernel(t, now) && RequestsMatch(t.requests, t.consumptions)
  }

  // ------------------------------------------------------------ kinds of change

  // A random id nobody has heard of.
  predicate Unheard(t: Tables, id: Id) {
    id != "" && id !in t.consumptions && forall i :: 0 <= i < |t.notices| ==> t.notices[i].installation != id
  }

  // A status write: no attempts, and the revision of the app's row goes up.
  predicate StartsOver(t: Tables, app: Id, row: Row) {
    row.cleanup.attempts == 0 && (app in t.rows ==> t.rows[app].cleanup.revision < row.cleanup.revision)
  }

  // A new installation takes an app's place: consent or direct.
  ghost predicate Installs(t: Tables, u: Tables, app: Id, row: Row) {
    && StartsOver(t, app, row)
    && Unheard(t, row.id) && row.status.Pending?
    && (app in t.rows ==> t.rows[app].status.Uninstalled?)
    && u.rows == t.rows[app := row] && u.tokens == t.tokens && u.intents == t.intents && u.intentRequests == t.intentRequests
    && u.notices == t.notices + [Notice(row.id, Pending)]
    && (row.intent == "" ==> u.consumptions == t.consumptions && u.grants == t.grants)
    && (row.intent != "" ==>
          && row.id in u.consumptions && u.consumptions == t.consumptions[row.id := u.consumptions[row.id]]
          && u.grants == t.grants[row.id := Grant(Waiting, [])]
          && var c := u.consumptions[row.id];
             && c.intent == row.intent && c.release.app == app && row.version == c.release.version && row.scopes == c.release.scopes && row.capabilities == Routed(c.release)
             && Agreed(c, t.intents) && !Consumed(t, c.intent))
  }

  // The same installation moves on to a later state.
  ghost predicate Moves(t: Tables, u: Tables, app: Id, row: Row) {
    && StartsOver(t, app, row)
    && app in t.rows
    && (var o := t.rows[app];
        && row.id == o.id && row.version == o.version && row.intent == o.intent && Phase(o.status) < Phase(row.status)
        && (row.status.Active? ==> row.scopes == o.scopes && row.capabilities == o.capabilities && !CapabilityBusy(t.rows, o.id, row.capabilities)
                                   && (o.id in t.consumptions && Engine(t.consumptions[o.id].release.profile) ==> !BindingBusy(t, o.id, t.consumptions[o.id].release.binding)))
        && (!row.status.Active? ==> row.scopes == [] && row.capabilities == [])
        && u.grants == (if o.id in t.grants then t.grants[o.id := if row.status.Active? then Grant(Granted, o.scopes) else Grant(Revoked, [])] else t.grants)
        && u.tokens == (if row.status.Active? then t.tokens else RevokeTokens(t.tokens, o.id))
        && u.notices == t.notices + [Notice(o.id, row.status)])
    && u.rows == t.rows[app := row] && u.consumptions == t.consumptions && u.intents == t.intents && u.intentRequests == t.intentRequests
  }

  // ------------------------------------------------------- a new installation

  lemma InstallIsNew(t: Tables, u: Tables, app: Id, row: Row, now: int)
    requires Kernel(t, now) && Installs(t, u, app, row)
    ensures row.id !in t.consumptions && forall a :: a in t.rows ==> t.rows[a].id != row.id
  {
    hide GrantsMatch, TokensMatch, RoutesApart, BindingsApart, IntentsMatch, DecisionsMatch, ConsentsMatch, RowsMatch, UniqueIds, Agreed, NoticesMatch, Held;
    UnheardIsNotHeld(t, row.id, now);
    forall a | a in t.rows
      ensures t.rows[a].id != row.id
    {
      HolderIsHeld(t.rows, a);
    }
  }

  lemma InstallKeepsRows(t: Tables, u: Tables, app: Id, row: Row, now: int)
    requires Kernel(t, now) && Installs(t, u, app, row)
    ensures UniqueIds(u.rows) && RowsMatch(u.rows, u.consumptions)
  {
    hide GrantsMatch, TokensMatch, RoutesApart, BindingsApart, IntentsMatch, DecisionsMatch, ConsentsMatch, NoticesMatch, Agreed, Routed, Unheard;
    InstallIsNew(t, u, app, row, now);
  }

  lemma UnheardIsNotHeld(t: Tables, id: Id, now: int)
    requires Kernel(t, now) && Unheard(t, id)
    ensures !Held(t.rows, id)
  {
    hide GrantsMatch, TokensMatch, RoutesApart, BindingsApart, IntentsMatch, DecisionsMatch, ConsentsMatch, RowsMatch, Ordered;
  }

  lemma HolderIsHeld(rows: map<Id, Row>, a: Id)
    requires a in rows
    ensures Held(rows, rows[a].id)
  {
  }

  lemma HeldAfterInstall(t: Tables, u: Tables, app: Id, row: Row, id: Id)
    requires Installs(t, u, app, row)
    ensures Held(u.rows, id) ==> id == row.id || Held(t.rows, id)
    ensures Held(t.rows, id) && !Held(u.rows, id) ==> app in t.rows && t.rows[app].id == id
  {
    hide Agreed, Unheard;
    if a :| a in t.rows && t.rows[a].id == id {
      assert a != app ==> a in u.rows && u.rows[a].id == id;
    }
  }

  lemma InstallKeepsGrants(t: Tables, u: Tables, app: Id, row: Row, now: int)
    requires Kernel(t, now) && Installs(t, u, app, row)
    ensures GrantsMatch(u.rows, u.consumptions, u.grants)
  {
    hide TokensMatch, RoutesApart, BindingsApart, IntentsMatch, DecisionsMatch, ConsentsMatch, NoticesMatch, Agreed, Routed, Held;
    UnheardIsNotHeld(t, row.id, now);
    forall a | a in t.rows
      ensures t.rows[a].id != row.id
    {
      HolderIsHeld(t.rows, a);
    }
    forall id | id in u.grants && !Held(u.rows, id)
      ensures u.grants[id] == Grant(Revoked, [])
    {
      HeldAfterInstall(t, u, app, row, id);
      HolderIsHeld(u.rows, app);
    }
  }

  lemma InstallKeepsTokens(t: Tables, u: Tables, app: Id, row: Row, now: int)
    requires Kernel(t, now) && Installs(t, u, app, row)
    ensures TokensMatch(u.rows, u.tokens) && RoutesApart(u.rows) && BindingsApart(u.rows, u.consumptions)
  {
    hide GrantsMatch, IntentsMatch, DecisionsMatch, ConsentsMatch, NoticesMatch, Agreed, Routed, RowsMatch;
    UnheardIsNotHeld(t, row.id, now);
    forall k | k in u.tokens && !u.tokens[k].revoked
      ensures Serving(u.rows, u.tokens[k].installation)
    {
      var a :| a in t.rows && t.rows[a].id == t.tokens[k].installation && t.rows[a].status.Active? && t.rows[a].intent != "";
      assert a in u.rows && u.rows[a] == t.rows[a];
    }
    forall a, x | Bound(u.rows, u.consumptions, a, x)
      ensures Bound(t.rows, t.consumptions, a, x)
    {
    }
  }

  lemma InstallKeepsConsents(t: Tables, u: Tables, app: Id, row: Row, now: int)
    requires Kernel(t, now) && Installs(t, u, app, row)
    ensures ConsentsMatch(u.intents, u.consumptions)
  {
    hide GrantsMatch, TokensMatch, RoutesApart, BindingsApart, IntentsMatch, DecisionsMatch, NoticesMatch, Agreed, RowsMatch, UniqueIds;
  }

  lemma InstallKeepsNotices(t: Tables, u: Tables, app: Id, row: Row, now: int)
    requires Kernel(t, now) && Installs(t, u, app, row)
    ensures NoticesMatch(u.rows, u.consumptions, u.notices)
  {
    hide GrantsMatch, TokensMatch, RoutesApart, BindingsApart, IntentsMatch, DecisionsMatch, ConsentsMatch, RowsMatch, Agreed, Routed, Held, Ordered;
    UnheardIsNotHeld(t, row.id, now);
    assert u.notices[|t.notices|] == Notice(row.id, Pending);
    forall n | n in t.notices && !Held(u.rows, n.installation)
      ensures Notice(n.installation, Uninstalled) in u.notices
    {
      HeldAfterInstall(t, u, app, row, n.installation);
    }
    assert Held(u.rows, row.id) by { HolderIsHeld(u.rows, app); }
    AppendKeepsOrder(t.notices, Notice(row.id, Pending));
  }

  lemma AppendKeepsOrder(notices: seq<Notice>, n: Notice)
    requires Ordered(notices) && forall m :: m in notices && m.installation == n.installation ==> Phase(m.status) < Phase(n.status)
    ensures Ordered(notices + [n])
  {
  }

  lemma InstallKeeps(t: Tables, u: Tables, app: Id, row: Row, now: int)
    requires Kernel(t, now) && Installs(t, u, app, row)
    ensures Kernel(u, now)
  {
    hide UniqueIds, RowsMatch, GrantsMatch, TokensMatch, RoutesApart, BindingsApart, IntentsMatch, DecisionsMatch, ConsentsMatch, NoticesMatch, Agreed, Unheard;
    InstallKeepsRows(t, u, app, row, now);
    InstallKeepsGrants(t, u, app, row, now);
    InstallKeepsTokens(t, u, app, row, now);
    InstallKeepsConsents(t, u, app, row, now);
    InstallKeepsNotices(t, u, app, row, now);
  }

  // ------------------------------------------------------------ a state change

  lemma MoveKeepsRows(t: Tables, u: Tables, app: Id, row: Row, now: int)
    requires Kernel(t, now) && Moves(t, u, app, row)
    ensures UniqueIds(u.rows) && RowsMatch(u.rows, u.consumptions)
  {
    hide GrantsMatch, TokensMatch, RoutesApart, BindingsApart, IntentsMatch, DecisionsMatch, ConsentsMatch, NoticesMatch, CapabilityBusy, BindingBusy, RevokeTokens, Routed;
  }

  lemma HeldAfterMove(t: Tables, u: Tables, app: Id, row: Row, id: Id)
    requires app in t.rows && row.id == t.rows[app].id && u.rows == t.rows[app := row]
    ensures Held(t.rows, id) <==> Held(u.rows, id)
  {
    if a :| a in t.rows && t.rows[a].id == id {
      assert a in u.rows && u.rows[a].id == id;
    }
    if a :| a in u.rows && u.rows[a].id == id {
      assert a in t.rows && t.rows[a].id == id;
    }
  }

  lemma MoveKeepsGrants(t: Tables, u: Tables, app: Id, row: Row, now: int)
    requires Kernel(t, now) && Moves(t, u, app, row)
    ensures GrantsMatch(u.rows, u.consumptions, u.grants)
  {
    hide TokensMatch, RoutesApart, BindingsApart, IntentsMatch, DecisionsMatch, ConsentsMatch, NoticesMatch, CapabilityBusy, BindingBusy, RevokeTokens, Routed, Held;
    forall id
      ensures Held(t.rows, id) <==> Held(u.rows, id)
    {
      HeldAfterMove(t, u, app, row, id);
    }
    assert Held(t.rows, row.id) by { HolderIsHeld(t.rows, app); }
  }

  lemma MoveKeepsTokens(t: Tables, u: Tables, app: Id, row: Row, now: int)
    requires Kernel(t, now) && Moves(t, u, app, row)
    ensures TokensMatch(u.rows, u.tokens)
  {
    hide GrantsMatch, RoutesApart, BindingsApart, IntentsMatch, DecisionsMatch, ConsentsMatch, NoticesMatch, CapabilityBusy, BindingBusy, RowsMatch;
    forall k | k in u.tokens && !u.tokens[k].revoked
      ensures Serving(u.rows, u.tokens[k].installation)
    {
      assert !t.tokens[k].revoked;
      var a :| a in t.rows && t.rows[a].id == t.tokens[k].installation && t.rows[a].status.Active? && t.rows[a].intent != "";
      assert a in u.rows && (a != app ==> u.rows[a] == t.rows[a]);
    }
  }

  lemma MoveKeepsRoutes(t: Tables, u: Tables, app: Id, row: Row, now: int)
    requires Kernel(t, now) && Moves(t, u, app, row)
    ensures RoutesApart(u.rows)
  {
    hide GrantsMatch, TokensMatch, BindingsApart, IntentsMatch, DecisionsMatch, ConsentsMatch, NoticesMatch, BindingBusy, RowsMatch, RevokeTokens;
    forall a, c | a in t.rows && a != app && t.rows[a].status.Active? && c in t.rows[a].capabilities
      ensures row.status.Active? ==> c !in row.capabilities
    {
      if row.status.Active? && c in row.capabilities {
        BusyWhen(t.rows, t.rows[app].id, row.capabilities, a, c);
      }
    }
  }

  lemma BusyWhen(rows: map<Id, Row>, id: Id, capabilities: seq<string>, a: Id, c: string)
    requires a in rows && rows[a].id != id && rows[a].status.Active? && c in capabilities && c in rows[a].capabilities
    ensures CapabilityBusy(rows, id, capabilities)
  {
    var i :| 0 <= i < |capabilities| && capabilities[i] == c;
  }

  lemma MoveKeepsBindings(t: Tables, u: Tables, app: Id, row: Row, now: int)
    requires Kernel(t, now) && Moves(t, u, app, row)
    ensures BindingsApart(u.rows, u.consumptions)
  {
    hide GrantsMatch, TokensMatch, RoutesApart, IntentsMatch, DecisionsMatch, ConsentsMatch, NoticesMatch, CapabilityBusy, RowsMatch, RevokeTokens;
    forall a, b, x | Bound(u.rows, u.consumptions, a, x) && Bound(u.rows, u.consumptions, b, x)
      ensures a == b
    {
      if a != b {
        BindingTaken(t, u, app, row, a, b, x, now);
        BindingTaken(t, u, app, row, b, a, x, now);
      }
    }
  }

  lemma BindingTaken(t: Tables, u: Tables, app: Id, row: Row, a: Id, b: Id, x: Binding, now: int)
    requires UniqueIds(t.rows) && Moves(t, u, app, row) && a != b && Bound(u.rows, u.consumptions, a, x) && Bound(u.rows, u.consumptions, b, x)
    ensures a != app && Bound(t.rows, t.consumptions, a, x)
  {
    hide CapabilityBusy, RevokeTokens;
  }

  lemma MoveKeepsNotices(t: Tables, u: Tables, app: Id, row: Row, now: int)
    requires Kernel(t, now) && Moves(t, u, app, row)
    ensures NoticesMatch(u.rows, u.consumptions, u.notices)
  {
    hide GrantsMatch, TokensMatch, RoutesApart, BindingsApart, IntentsMatch, DecisionsMatch, ConsentsMatch, RowsMatch, CapabilityBusy, BindingBusy, RevokeTokens, Held, Ordered;
    assert u.notices[|t.notices|] == Notice(row.id, row.status);
    forall id
      ensures Held(t.rows, id) <==> Held(u.rows, id)
    {
      HeldAfterMove(t, u, app, row, id);
    }
    assert Held(t.rows, row.id) by { HolderIsHeld(t.rows, app); }
    AppendKeepsOrder(t.notices, Notice(row.id, row.status));
  }

  lemma MoveKeeps(t: Tables, u: Tables, app: Id, row: Row, now: int)
    requires Kernel(t, now) && Moves(t, u, app, row)
    ensures Kernel(u, now)
  {
    hide UniqueIds, RowsMatch, GrantsMatch, TokensMatch, RoutesApart, BindingsApart, IntentsMatch, DecisionsMatch, ConsentsMatch, NoticesMatch, CapabilityBusy, BindingBusy, RevokeTokens;
    MoveKeepsRows(t, u, app, row, now);
    MoveKeepsGrants(t, u, app, row, now);
    MoveKeepsTokens(t, u, app, row, now);
    MoveKeepsRoutes(t, u, app, row, now);
    MoveKeepsBindings(t, u, app, row, now);
    MoveKeepsNotices(t, u, app, row, now);
  }

  // --------------------------------------------------------- cleanup bookkeeping

  // Only the cleanup columns of a disabling row change.
  ghost predicate Tends(t: Tables, u: Tables, app: Id, row: Row) {
    && app in t.rows && t.rows[app].status.Disabling? && row == t.rows[app].(cleanup := row.cleanup) && t.rows[app].cleanup.revision < row.cleanup.revision
    && u.rows == t.rows[app := row] && u.consumptions == t.consumptions && u.intents == t.intents && u.notices == t.notices && u.intentRequests == t.intentRequests
    && u.grants == (if row.id in t.grants then t.grants[row.id := Grant(Revoked, [])] else t.grants)
    && u.tokens == RevokeTokens(t.tokens, row.id)
  }

  lemma TendKeeps(t: Tables, u: Tables, app: Id, row: Row, now: int)
    requires Kernel(t, now) && Tends(t, u, app, row)
    ensures Kernel(u, now)
  {
    hide RevokeTokens, UniqueIds, RoutesApart, BindingsApart, ConsentsMatch, IntentsMatch, DecisionsMatch, TokensMatch, RowsMatch, NoticesMatch, GrantsMatch;
    TendKeepsRows(t, u, app, row);
    TendKeepsGrants(t, u, app, row, now);
    TendKeepsTokens(t, u, app, row, now);
    TendKeepsNotices(t, u, app, row, now);
  }

  lemma TendKeepsRows(t: Tables, u: Tables, app: Id, row: Row)
    requires UniqueIds(t.rows) && RowsMatch(t.rows, t.consumptions) && RoutesApart(t.rows) && BindingsApart(t.rows, t.consumptions) && Tends(t, u, app, row)
    ensures UniqueIds(u.rows) && RowsMatch(u.rows, u.consumptions) && RoutesApart(u.rows) && BindingsApart(u.rows, u.consumptions)
  {
    hide RevokeTokens, Routed;
    forall a, x | Bound(u.rows, u.consumptions, a, x)
      ensures Bound(t.rows, t.consumptions, a, x)
    {
    }
  }

  lemma TendKeepsGrants(t: Tables, u: Tables, app: Id, row: Row, now: int)
    requires Kernel(t, now) && Tends(t, u, app, row)
    ensures GrantsMatch(u.rows, u.consumptions, u.grants)
  {
    hide RevokeTokens, RoutesApart, BindingsApart, ConsentsMatch, IntentsMatch, DecisionsMatch, TokensMatch, RowsMatch, NoticesMatch, Held;
    forall id
      ensures Held(t.rows, id) <==> Held(u.rows, id)
    {
      HeldAfterMove(t, u, app, row, id);
    }
    assert Held(t.rows, row.id) by { HolderIsHeld(t.rows, app); }
  }

  lemma TendKeepsTokens(t: Tables, u: Tables, app: Id, row: Row, now: int)
    requires Kernel(t, now) && Tends(t, u, app, row)
    ensures TokensMatch(u.rows, u.tokens)
  {
    hide RoutesApart, BindingsApart, ConsentsMatch, IntentsMatch, DecisionsMatch, RowsMatch, NoticesMatch, GrantsMatch;
    forall k | k in u.tokens && !u.tokens[k].revoked
      ensures Serving(u.rows, u.tokens[k].installation)
    {
      assert !t.tokens[k].revoked;
      var a :| a in t.rows && t.rows[a].id == t.tokens[k].installation && t.rows[a].status.Active? && t.rows[a].intent != "";
      assert a in u.rows && u.rows[a] == t.rows[a];
    }
  }

  lemma TendKeepsNotices(t: Tables, u: Tables, app: Id, row: Row, now: int)
    requires Kernel(t, now) && Tends(t, u, app, row)
    ensures NoticesMatch(u.rows, u.consumptions, u.notices)
  {
    hide RoutesApart, BindingsApart, ConsentsMatch, IntentsMatch, DecisionsMatch, RowsMatch, TokensMatch, GrantsMatch, Held, Ordered, RevokeTokens;
    forall id
      ensures Held(t.rows, id) <==> Held(u.rows, id)
    {
      HeldAfterMove(t, u, app, row, id);
    }
  }

  // ----------------------------------------------------------------- all effects

  // The one thing a transaction did to rows, grants, tokens and consumptions.
  datatype Effect =
    | Nothing
    | Installing(app: Id, row: Row)
    | Moving(app: Id, row: Row)
    | Tending(app: Id, row: Row)
    | Issuing(token: Id, issued: AppToken)
    | Deciding(intent: Id, next: Intent, who: OwnerKey, request: IntentRequest)

  // A new token replaces the live one of an active installation.
  ghost predicate Issues(t: Tables, u: Tables, token: Id, issued: AppToken) {
    && token !in t.tokens && !issued.revoked && Serving(t.rows, issued.installation)
    && u.tokens == RevokeTokens(t.tokens, issued.installation)[token := issued]
    && u.rows == t.rows && u.consumptions == t.consumptions && u.grants == t.grants && u.intents == t.intents && u.notices == t.notices && u.intentRequests == t.intentRequests
  }

  // An intent is prepared, or an open one decided, and the request is recorded.
  ghost predicate Decides(t: Tables, u: Tables, intent: Id, next: Intent, who: OwnerKey, request: IntentRequest, now: int) {
    && who !in t.intentRequests && who.owner == next.owner && request.intent == intent
    && (if intent in t.intents
        then && t.intents[intent].state.Undecided? && !next.state.Undecided?
             && next == t.intents[intent].(state := next.state, decidedAt := next.decidedAt)
             && request.body == DecideBody(intent, DigestOf(intent, next), next.state.Consented?)
        else next.state.Undecided? && request.body == PrepareBody(next.release.app, next.release.version))
    && next.createdAt <= now && next.expiresAt == next.createdAt + TTL
    && (next.state.Undecided? <==> next.decidedAt.None?)
    && (next.decidedAt.Some? ==> next.createdAt <= next.decidedAt.value <= now && next.decidedAt.value < next.expiresAt)
    && u == t.(intents := t.intents[intent := next], intentRequests := t.intentRequests[who := request])
  }

  ghost predicate Explains(e: Effect, t: Tables, u: Tables, now: int) {
    match e
    case Nothing => u.rows == t.rows && u.consumptions == t.consumptions && u.grants == t.grants && u.tokens == t.tokens && u.intents == t.intents && u.notices == t.notices && u.intentRequests == t.intentRequests
    case Installing(app, row) => Installs(t, u, app, row)
    case Moving(app, row) => Moves(t, u, app, row)
    case Tending(app, row) => Tends(t, u, app, row)
    case Issuing(token, issued) => Issues(t, u, token, issued)
    case Deciding(intent, next, who, request) => Decides(t, u, intent, next, who, request, now)
  }

  lemma InstallingExplains(t: Tables, u: Tables, app: Id, row: Row, now: int)
    requires Installs(t, u, app, row)
    ensures Explains(Installing(app, row), t, u, now)
  {
  }

  lemma NothingExplains(t: Tables, u: Tables, now: int)
    requires u == t.(requests := u.requests, receipts := u.receipts)
    ensures Explains(Nothing, t, u, now)
  {
  }

  lemma IssueKeeps(t: Tables, u: Tables, token: Id, issued: AppToken, now: int)
    requires Kernel(t, now) && Issues(t, u, token, issued)
    ensures Kernel(u, now)
  {
    hide UniqueIds, RoutesApart, BindingsApart, ConsentsMatch, IntentsMatch, DecisionsMatch, RowsMatch, NoticesMatch, GrantsMatch, Serving;
  }

  lemma DecideKeepsConsents(t: Tables, u: Tables, intent: Id, next: Intent, who: OwnerKey, request: IntentRequest, now: int)
    requires Kernel(t, now) && Decides(t, u, intent, next, who, request, now)
    ensures IntentsMatch(u.intents, now) && ConsentsMatch(u.intents, u.consumptions)
  {
    hide UniqueIds, RoutesApart, BindingsApart, RowsMatch, NoticesMatch, GrantsMatch, TokensMatch, DecisionsMatch, Closed;
  }

  lemma DecideKeepsDecisions(t: Tables, u: Tables, intent: Id, next: Intent, who: OwnerKey, request: IntentRequest, now: int)
    requires DecisionsMatch(t.intentRequests, t.intents) && Decides(t, u, intent, next, who, request, now)
    ensures DecisionsMatch(u.intentRequests, u.intents)
  {
    forall id | id in u.intents && !u.intents[id].state.Undecided?
      ensures DecidedBy(u.intentRequests, id, u.intents[id])
    {
      if id == intent {
        assert u.intentRequests[who] == request;
      } else {
        var q :| q in t.intentRequests && q.owner == t.intents[id].owner && t.intentRequests[q] == IntentRequest(DecideBody(id, DigestOf(id, t.intents[id]), t.intents[id].state.Consented?), id);
        assert u.intentRequests[q] == t.intentRequests[q];
      }
    }
  }

  lemma DecideKeeps(t: Tables, u: Tables, intent: Id, next: Intent, who: OwnerKey, request: IntentRequest, now: int)
    requires Kernel(t, now) && Decides(t, u, intent, next, who, request, now)
    ensures Kernel(u, now)
  {
    hide UniqueIds, RoutesApart, BindingsApart, RowsMatch, NoticesMatch, GrantsMatch, TokensMatch, IntentsMatch, ConsentsMatch, DecisionsMatch;
    DecideKeepsConsents(t, u, intent, next, who, request, now);
    DecideKeepsDecisions(t, u, intent, next, who, request, now);
  }

  lemma EffectKeeps(e: Effect, t: Tables, u: Tables, now: int)
    requires Kernel(t, now) && Explains(e, t, u, now)
    ensures Kernel(u, now)
  {
    hide Installs, Moves, Tends, Issues, Decides, UniqueIds, RowsMatch, GrantsMatch, TokensMatch, RoutesApart, BindingsApart, IntentsMatch, DecisionsMatch, ConsentsMatch, NoticesMatch;
    match e
    case Nothing =>
    case Installing(app, row) => InstallKeeps(t, u, app, row, now);
    case Moving(app, row) => MoveKeeps(t, u, app, row, now);
    case Tending(app, row) => TendKeeps(t, u, app, row, now);
    case Issuing(token, issued) => IssueKeeps(t, u, token, issued, now);
    case Deciding(intent, next, who, request) => DecideKeeps(t, u, intent, next, who, request, now);
  }

  lemma TimePasses(t: Tables, now: int, later: int)
    requires Kernel(t, now) && now <= later
    ensures Kernel(t, later)
  {
    hide UniqueIds, RowsMatch, GrantsMatch, TokensMatch, RoutesApart, BindingsApart, ConsentsMatch, NoticesMatch;
  }

  // ---------------------------------------------------------------- never backwards

  ghost predicate Known(t: Tables, id: Id) {
    exists n :: n in t.notices && n.installation == id
  }

  // No installation that exists ever returns to an earlier state.
  ghost predicate Forward(t: Tables, u: Tables) {
    && t.notices <= u.notices
    && forall id :: Known(t, id) ==> Phase(StatusOf(t.rows, id)) <= Phase(StatusOf(u.rows, id))
  }

  lemma HolderIs(rows: map<Id, Row>, app: Id)
    requires UniqueIds(rows) && app in rows
    ensures Holder(rows, rows[app].id) == Some(app) && StatusOf(rows, rows[app].id) == rows[app].status
  {
  }

  lemma HolderHolds(rows: map<Id, Row>, id: Id)
    requires Holder(rows, id).Some?
    ensures Holder(rows, id).value in rows && rows[Holder(rows, id).value].id == id
  {
  }

  lemma InstallMovesForward(t: Tables, u: Tables, app: Id, row: Row, id: Id)
    requires UniqueIds(t.rows) && UniqueIds(u.rows) && Installs(t, u, app, row) && Known(t, id)
    ensures Phase(StatusOf(t.rows, id)) <= Phase(StatusOf(u.rows, id))
  {
    hide Agreed;
    assert id != row.id by {
      var n :| n in t.notices && n.installation == id;
    }
    var h := Holder(u.rows, id);
    if h.Some? {
      assert h.value != app;
      HolderIs(t.rows, h.value);
    }
  }

  lemma SameIdsMoveForward(t: Tables, u: Tables, app: Id, row: Row, id: Id)
    requires UniqueIds(t.rows) && UniqueIds(u.rows) && app in t.rows && u.rows == t.rows[app := row] && row.id == t.rows[app].id
    requires Phase(t.rows[app].status) <= Phase(row.status)
    ensures Phase(StatusOf(t.rows, id)) <= Phase(StatusOf(u.rows, id))
  {
    var h := Holder(u.rows, id);
    if h.Some? {
      HolderIs(t.rows, h.value);
    }
  }

  lemma EffectMovesForward(e: Effect, t: Tables, u: Tables, now: int)
    requires Kernel(t, now) && Explains(e, t, u, now)
    ensures Forward(t, u)
  {
    hide RowsMatch, GrantsMatch, TokensMatch, RoutesApart, BindingsApart, IntentsMatch, DecisionsMatch, ConsentsMatch, NoticesMatch, StatusOf, Agreed, CapabilityBusy, BindingBusy, RevokeTokens, UniqueIds;
    EffectKeeps(e, t, u, now);
    forall id | Known(t, id)
      ensures Phase(StatusOf(t.rows, id)) <= Phase(StatusOf(u.rows, id))
    {
      match e
      case Installing(app, row) => InstallMovesForward(t, u, app, row, id);
      case Moving(app, row) => SameIdsMoveForward(t, u, app, row, id);
      case Tending(app, row) => SameIdsMoveForward(t, u, app, row, id);
      case _ =>
    }
  }
}
