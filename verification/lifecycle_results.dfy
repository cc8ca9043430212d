// What the lifecycle's invariants mean for its callers, over every timed run.
module LifecycleResults {
  import opened Base
  import opened Consent
  import opened LifecycleTables
  import opened LifecycleRules
  import LifecycleSteps
  import LifecycleEffects
  import opened Connections
  import opened Lifecycle
  import opened LifecycleSafety

  lemma ReachableTables(w: World, now: int)
    requires Reachable(w, now)
    ensures TablesInv(w.tables, now)
  {
    hide TablesInv, Reachable;
    EveryRunIsSafe(w, now);
  }

  // ------------------------------------------------------------------ provenance

  // Every active grant stands on one consent of its owner: same release and digest,
  // scopes exactly those consented to, decided before it was used and used within
  // ten minutes of being asked; no consent serves twice; and the owner is on record
  // presenting that very digest both to decide and to consume.
  lemma EveryGrantIsConsented(w: World, now: int, id: Id)
    requires Reachable(w, now) && id in w.tables.grants && w.tables.grants[id].state.Granted?
    ensures var t := w.tables;
            && id in t.consumptions
            && (var c := t.consumptions[id];
                && c.intent in t.intents
                && (var i := t.intents[c.intent];
                    && i.state.Consented? && i.owner == c.owner && i.release == c.release && c.digest == DigestOf(c.intent, i)
                    && t.grants[id].scopes == i.release.scopes
                    && i.decidedAt.Some? && i.createdAt <= i.decidedAt.value <= c.consumedAt < i.createdAt + TTL)
                && (forall k :: k in t.consumptions && t.consumptions[k].intent == c.intent ==> k == id)
                && DecidedBy(t.intentRequests, c.intent, t.intents[c.intent]) && AskedFor(t.requests, id, c)
                && (exists a :: a in t.rows && t.rows[a].id == id && t.rows[a].status.Active? && t.rows[a].version == c.release.version && a == c.release.app))
  {
    hide Reachable, TokensMatch, RoutesApart, BindingsApart, IntentsMatch, NoticesMatch, Routed, Shaped, DecidedBy, AskedFor, RequestOf, DecisionOf;
    ReachableTables(w, now);
    var t := w.tables;
    assert Held(t.rows, id);
    var a :| a in t.rows && t.rows[a].id == id;
    assert t.rows[a].status.Active?;
  }

  // Only what a policy allows is ever granted: the closed list for the fixture and
  // shipping policies, never without a capability it belongs to; what was declared as
  // required for a resource app; and nothing to user interfaces.
  predicate Grantable(r: Release, scope: string) {
    match r.policy
    case ResourceApp => r.resource.Some? && scope in r.resource.value.required
    case ReviewedUi => false
    case EmbeddedPilot => false
    case OtherPolicy(_) => false
    case _ =>
      || (r.capabilities == ["payment/v1"] && scope in ["orders.read", "payments.read", "payments.write"])
      || (r.capabilities == ["shipping/v1"] && scope in ["orders.read", "shipping.read", "shipping.write"])
  }

  lemma OnlyListedScopesAreGranted(w: World, now: int, id: Id, scope: string)
    requires Reachable(w, now) && id in w.tables.grants && scope in w.tables.grants[id].scopes
    ensures id in w.tables.consumptions && Grantable(w.tables.consumptions[id].release, scope)
  {
    hide Reachable, TokensMatch, RoutesApart, BindingsApart, IntentsMatch, DecisionsMatch, NoticesMatch, RequestsMatch, Routed, Shaped, RowsMatch, UniqueIds, Grantable;
    ReachableTables(w, now);
    var t := w.tables;
    assert Agreed(t.consumptions[id], t.intents);
    if Held(t.rows, id) {
      var a :| a in t.rows && t.rows[a].id == id;
      assert t.grants[id] == GrantFor(t.rows[a].status, t.consumptions[id].release);
    }
    ShapedScopes(t.consumptions[id].release, scope);
  }

  lemma ShapedScopes(r: Release, scope: string)
    requires Shaped(r) && scope in r.scopes
    ensures Grantable(r, scope)
  {
    hide Before;
    if r.policy.ResourceApp? {
      assert scope in multiset(r.scopes);
    }
  }

  // --------------------------------------------------------------------- routing

  // The row a capability is routed to, and the grant check behind it.
  ghost predicate Routes(t: Tables, capability: string, app: Id) {
    app in t.rows && t.rows[app].status.Active? && capability in t.rows[app].capabilities
  }

  // Whichever of the two paths installed them, at most one active installation
  // serves a capability, at most one active managed or provider installation a
  // shipping binding, and the routed one always passes the grant check.
  lemma RoutingIsAFunction(w: World, now: int)
    requires Reachable(w, now)
    ensures var t := w.tables;
            && (forall c, a, b :: Routes(t, c, a) && Routes(t, c, b) ==> a == b)
            && (forall x, a, b :: LifecycleRules.Bound(t.rows, t.consumptions, a, x) && LifecycleRules.Bound(t.rows, t.consumptions, b, x) ==> a == b)
            && (forall c, a :: Routes(t, c, a) ==> HasActiveGrant(t, t.rows[a]))
  {
    hide Reachable, TokensMatch, IntentsMatch, DecisionsMatch, ConsentsMatch, NoticesMatch, RequestsMatch;
    ReachableTables(w, now);
    var t := w.tables;
    forall a | a in t.rows && t.rows[a].status.Active?
      ensures HasActiveGrant(t, t.rows[a])
    {
      ActiveHasGrant(t, a, now);
    }
  }

  lemma ActiveHasGrant(t: Tables, a: Id, now: int)
    requires Kernel(t, now) && a in t.rows && t.rows[a].status.Active?
    ensures HasActiveGrant(t, t.rows[a])
  {
    hide TokensMatch, IntentsMatch, DecisionsMatch, ConsentsMatch, NoticesMatch, RoutesApart, BindingsApart, UniqueIds, Held, Routed;
  }

  // ----------------------------------------------------------------------- drift

  // The owner of a consumption can always read it: the drift check never fires.
  lemma AccessNeverDrifts(w: World, now: int, id: Id)
    requires Reachable(w, now) && id in w.tables.consumptions
    ensures var t := w.tables;
            ReadAccess(t, t.consumptions[id].owner, id) == Ok(View(t.consumptions[id].intent, t.consumptions[id].release, t.consumptions[id].digest, t.consumptions[id].consumedAt,
                                                                    StatusOf(t.rows, id), GrantFor(StatusOf(t.rows, id), t.consumptions[id].release)))
  {
    hide Reachable, TokensMatch, IntentsMatch, DecisionsMatch, ConsentsMatch, NoticesMatch, RequestsMatch, RoutesApart, BindingsApart, UniqueIds, Routed;
    ReachableTables(w, now);
    var t := w.tables;
    assert !Held(t.rows, id) ==> Holder(t.rows, id).None?;
  }

  // ----------------------------------------------------- when requests succeed

  // The profiles whose work a bound shipping provider does.
  predicate Ships(p: Profile) {
    p.ShippingFixture? || p.ManagedShippingLocal? || p.ProviderAppLocal?
  }

  // Another installation is active that serves one of the release's capabilities, or the
  // same binding of a managed or provider app.
  predicate Rival(t: Tables, row: Row, r: Release) {
    || (!Ships(r.profile) && exists c :: c in r.capabilities && c in row.capabilities)
    || ((r.profile.ManagedShippingLocal? || r.profile.ProviderAppLocal?) && r.binding.Some? && row.id in t.consumptions
        && (var other := t.consumptions[row.id].release; (other.profile.ManagedShippingLocal? || other.profile.ProviderAppLocal?) && other.binding == r.binding))
  }

  ghost predicate Rivalled(t: Tables, id: Id, r: Release) {
    exists a :: a in t.rows && t.rows[a].id != id && t.rows[a].status.Active? && Rival(t, t.rows[a], r)
  }

  // In a reachable state nothing but what a caller can check stands in the way of a
  // first activation: the installation is in use, the release still eligible, what
  // it depends on ready, a shipping provider bound, and no other active installation in
  // the way. A refusal leaves the tables alone.
  lemma ActivatesExactlyWhen(w: World, now: int, owner: Owner, key: string, id: Id, current: Result<Release>, special: Result<()>, ready: Result<()>)
    requires Reachable(w, now) && OwnerKey(owner, key) !in w.tables.requests
    requires id in w.tables.consumptions && w.tables.consumptions[id].owner == owner
    ensures var t := w.tables; var r := t.consumptions[id].release;
            ActivateAccess(t, owner, key, id, current, special, ready, now).1.Ok? <==>
              && InUse(StatusOf(t.rows, id)) && Eligible(r, current, special).Ok?
              && (r.profile.LocalRemote? || r.profile.KurirFixture? || Ships(r.profile) ==> ready.Ok?) && (Ships(r.profile) ==> r.binding.Some?)
              && (StatusOf(t.rows, id).Pending? ==> !Rivalled(t, id, r))
    ensures var (u, answer) := ActivateAccess(w.tables, owner, key, id, current, special, ready, now); answer.Err? ==> u == w.tables
  {
    hide Reachable, ReadAccess, Eligible, Ready, BindingBusy, CapabilityBusy, Activated, Routed, Rivalled;
    AccessNeverDrifts(w, now, id);
    LifecycleSteps.ReadyExactlyWhen(w.tables.consumptions[id].release, ready);
    BusyMeansRivalled(w.tables, id, w.tables.consumptions[id].release);
  }

  lemma BusyMeansRivalled(t: Tables, id: Id, r: Release)
    ensures (Engine(r.profile) && BindingBusy(t, id, r.binding)) || CapabilityBusy(t.rows, id, Routed(r)) <==> Rivalled(t, id, r)
  {
    if a :| a in t.rows && t.rows[a].id != id && t.rows[a].status.Active? && Rival(t, t.rows[a], r) {
      if c :| !Ships(r.profile) && c in r.capabilities && c in t.rows[a].capabilities {
        var i :| 0 <= i < |r.capabilities| && r.capabilities[i] == c;
        assert Routed(r)[i] == c;
      }
    }
  }

  // What an installation depends on and does not get: the dependency's own fault is the
  // answer, and no table changes.
  lemma UnreadyIsRefused(w: World, now: int, owner: Owner, key: string, id: Id, current: Result<Release>, special: Result<()>, ready: Result<()>)
    requires Reachable(w, now) && OwnerKey(owner, key) !in w.tables.requests
    requires id in w.tables.consumptions && w.tables.consumptions[id].owner == owner
    requires InUse(StatusOf(w.tables.rows, id)) && Eligible(w.tables.consumptions[id].release, current, special).Ok?
    requires var r := w.tables.consumptions[id].release; r.profile.LocalRemote? || r.profile.KurirFixture? || (Ships(r.profile) && r.binding.Some?)
    requires ready.Err?
    ensures ActivateAccess(w.tables, owner, key, id, current, special, ready, now) == (w.tables, Err(ready.fault))
  {
    hide Reachable, ReadAccess, Eligible, Ready, BindingBusy, CapabilityBusy, Activated, Routed;
    AccessNeverDrifts(w, now, id);
    LifecycleSteps.ReadyExactlyWhen(w.tables.consumptions[id].release, ready);
  }

  // A first token request succeeds exactly for an active installation of a policy
  // that has tokens, with an eligible release and a new token id.
  lemma TokenIssuedExactlyWhen(w: World, now: int, owner: Owner, key: string, id: Id, current: Result<Release>, special: Result<()>, token: Id)
    requires Reachable(w, now) && OwnerKey(owner, key) !in w.tables.requests
    requires id in w.tables.consumptions && w.tables.consumptions[id].owner == owner
    ensures var t := w.tables; var r := t.consumptions[id].release;
            IssueAppToken(t, owner, key, id, current, special, token, now).1.Ok? <==>
              StatusOf(t.rows, id).Active? && Eligible(r, current, special).Ok? && token !in t.tokens
              && !(r.policy.ResourceApp? || r.policy.EmbeddedPilot? || r.policy.ReviewedUi? || Ships(r.profile))
  {
    hide Reachable, ReadAccess, Eligible, RevokeTokens;
    AccessNeverDrifts(w, now, id);
  }

  // Uninstalling always works for the owner, whatever became of the release, and
  // leaves the installation out of use without a grant.
  lemma UninstallAlwaysWorks(w: World, now: int, owner: Owner, key: string, id: Id, u: Tables, r: Result<View>)
    requires Reachable(w, now) && OwnerKey(owner, key) !in w.tables.requests
    requires id in w.tables.consumptions && w.tables.consumptions[id].owner == owner
    requires (u, r) == UninstallAccess(w.tables, owner, key, id, now)
    ensures r.Ok? && !InUse(r.value.status) && r.value.grant == Grant(Revoked, [])
    ensures id in u.grants && u.grants[id] == Grant(Revoked, [])
    ensures forall k :: k in u.tokens && u.tokens[k].installation == id ==> u.tokens[k].revoked
  {
    hide Reachable, ReadAccess, Kernel, RequestsMatch, Retired, Moves, StatusOf;
    AccessNeverDrifts(w, now, id);
    ReachableTables(w, now);
    var t := w.tables;
    ConsumedHasGrant(t, id, now);
    if InUse(StatusOf(t.rows, id)) {
      HeldWhenInUse(t, id);
      var app := Holder(t.rows, id).value;
      RetiredClears(t, app, r.value.status, now, Retired(t, app, r.value.status, now));
    } else {
      OutOfUseHasNoToken(t, id, now);
    }
  }

  lemma HeldWhenInUse(t: Tables, id: Id)
    requires InUse(StatusOf(t.rows, id))
    ensures Holder(t.rows, id).Some? && InUse(t.rows[Holder(t.rows, id).value].status)
  {
  }

  lemma RetiredClears(t: Tables, app: Id, status: Status, now: int, u: Tables)
    requires app in t.rows && InUse(t.rows[app].status) && !InUse(status) && t.rows[app].id in t.grants && u == Retired(t, app, status, now)
    ensures u.grants == t.grants[t.rows[app].id := Grant(Revoked, [])] && u.tokens == RevokeTokens(t.tokens, t.rows[app].id)
  {
    hide RevokeTokens;
  }

  lemma ConsumedHasGrant(t: Tables, id: Id, now: int)
    requires Kernel(t, now) && id in t.consumptions
    ensures id in t.grants && (!InUse(StatusOf(t.rows, id)) ==> t.grants[id] == Grant(Revoked, []))
  {
    hide TokensMatch, RoutesApart, BindingsApart, ConsentsMatch, IntentsMatch, DecisionsMatch, NoticesMatch, RowsMatch;
    assert !Held(t.rows, id) ==> Holder(t.rows, id).None?;
  }

  lemma OutOfUseHasNoToken(t: Tables, id: Id, now: int)
    requires Kernel(t, now) && !InUse(StatusOf(t.rows, id))
    ensures forall k :: k in t.tokens && t.tokens[k].installation == id ==> t.tokens[k].revoked
  {
    hide GrantsMatch, RoutesApart, BindingsApart, ConsentsMatch, IntentsMatch, DecisionsMatch, NoticesMatch, RowsMatch;
  }

  // ----------------------------------------------------------------------- tokens

  // At most one live token per installation, and a token is accepted only for an
  // active installation holding exactly the release's scopes.
  lemma TokensServeOneActiveInstallation(w: World, now: int)
    requires Reachable(w, now)
    ensures var t := w.tables;
            && (forall k, l :: k in t.tokens && l in t.tokens && !t.tokens[k].revoked && !t.tokens[l].revoked && t.tokens[k].installation == t.tokens[l].installation ==> k == l)
            && (forall k :: k in t.tokens && !t.tokens[k].revoked ==>
                  exists a :: a in t.rows && t.rows[a].id == t.tokens[k].installation && t.rows[a].status.Active? && HasActiveGrant(t, t.rows[a]) && t.rows[a].intent != "")
  {
    hide Reachable, IntentsMatch, DecisionsMatch, ConsentsMatch, NoticesMatch, RequestsMatch, RoutesApart, BindingsApart;
    ReachableTables(w, now);
    var t := w.tables;
    forall k | k in t.tokens && !t.tokens[k].revoked
      ensures exists a :: a in t.rows && t.rows[a].id == t.tokens[k].installation && t.rows[a].status.Active? && HasActiveGrant(t, t.rows[a]) && t.rows[a].intent != ""
    {
      var a :| a in t.rows && t.rows[a].id == t.tokens[k].installation && t.rows[a].status.Active? && t.rows[a].intent != "";
      ActiveHasGrant(t, a, now);
    }
  }

  // What the trigger's revocation means: from then on no token of this installation is
  // accepted, and every answer about any other installation is as before.
  lemma RevocationRefusesExactly(t: Tables, id: Id, token: Id, app: Id, other: Id, current: Result<Release>, special: Result<()>, now: int, later: int)
    ensures CheckToken(Revoke(t, id), token, app, id, current, special, now, later) == Err(Unauthenticated)
    ensures other != id ==> CheckToken(Revoke(t, id), token, app, other, current, special, now, later) == CheckToken(t, token, app, other, current, special, now, later)
  {
    hide Eligible, Drifted;
  }

  // ---------------------------------------------------------------- never backwards

  lemma SameMovesForward(t: Tables)
    ensures Forward(t, t)
  {
  }

  lemma TablesMoveForward(w: World, turn: Turn)
    requires Safe(w, turn.now) && turn.now <= turn.later
    ensures Forward(w.tables, Next(w, turn).tables)
  {
    hide Kernel, Forward, RequestsMatch, WorkersMatch, ChargesMatch, EndsClean, AttemptsBounded, Explains, Next;
    var u := Next(w, turn).tables;
    var e := LifecycleEffects.StepEffect(w, turn, u);
    TimePasses(w.tables, turn.now, turn.later);
    EffectMovesForward(e, w.tables, u, turn.later);
  }

  lemma ForwardThrough(t: Tables, u: Tables, v: Tables)
    requires Forward(t, u) && Forward(u, v)
    ensures Forward(t, v)
  {
    forall id | Known(t, id)
      ensures Known(u, id)
    {
      var n :| n in t.notices && n.installation == id;
      assert n in u.notices;
    }
  }

  lemma {:induction false} RunMovesForward(w: World, now: int, more: seq<Turn>)
    requires Safe(w, now) && TimedFrom(now, more)
    ensures Forward(w.tables, Run(w, more).tables)
  {
    hide Forward, Next, Safe, TimedFrom, EndOf;
    if more == [] {
      SameMovesForward(w.tables);
    } else {
      var rest, last := more[..|more| - 1], more[|more| - 1];
      TimedPrefix(now, more);
      RunMovesForward(w, now, rest);
      RunStaysSafe(w, now, rest);
      SafeLater(Run(w, rest), EndOf(now, rest), last.now);
      TablesMoveForward(Run(w, rest), last);
      ForwardThrough(w.tables, Run(w, rest).tables, Run(w, more).tables);
    }
  }

  // From any reachable state on, every installation only moves along pending,
  // active, disabling, uninstalled.
  lemma StatusOnlyMovesForward(w: World, now: int, more: seq<Turn>)
    requires Reachable(w, now) && TimedFrom(now, more)
    ensures Forward(w.tables, Run(w, more).tables)
  {
    hide Reachable, Forward, Safe, TimedFrom, Run;
    EveryRunIsSafe(w, now);
    RunMovesForward(w, now, more);
  }

  // An installation that has left service is never accepted again: not by any
  // token check, not as a capability's route, not even after a reinstallation.
  lemma RetiredStaysRetired(w: World, now: int, more: seq<Turn>, id: Id, token: Id, app: Id, capability: string, current: Result<Release>, special: Result<()>, at: int, later: int)
    requires Reachable(w, now) && TimedFrom(now, more) && Known(w.tables, id) && !InUse(StatusOf(w.tables.rows, id))
    ensures CheckToken(Run(w, more).tables, token, app, id, current, special, at, later) == Err(Unauthenticated)
    ensures !(Routes(Run(w, more).tables, capability, app) && Run(w, more).tables.rows[app].id == id)
  {
    hide Reachable, Run, ReadAccess, Eligible, TimedFrom, Kernel, EndOf;
    EveryRunIsSafe(w, now);
    RunMovesForward(w, now, more);
    RunStaysSafe(w, now, more);
    var t := Run(w, more).tables;
    if app in t.rows && t.rows[app].id == id {
      KernelIsUnique(t, EndOf(now, more));
      HolderIs(t.rows, app);
    }
  }

  lemma KernelIsUnique(t: Tables, now: int)
    requires Kernel(t, now)
    ensures UniqueIds(t.rows)
  {
    hide UniqueIds;
  }

  // ----------------------------------------------------------------------- cleanup

  // With any number of workers holding any old readings, attempts never pass twelve
  // and a cleanup revision is charged at most once.
  lemma StaleWorkersCannotOvercount(w: World, now: int)
    requires Reachable(w, now)
    ensures forall a :: a in w.tables.rows ==> w.tables.rows[a].cleanup.attempts <= 12
    ensures forall i, j :: 0 <= i < j < |w.charges| ==> w.charges[i] != w.charges[j]
  {
    hide Reachable, TablesInv, EndsClean, WorkersMatch;
    EveryRunIsSafe(w, now);
  }

  // A reading whose revision still stands tells the attempts, so a failure charged to
  // it counts one more and waits the backoff of exactly that attempt.
  lemma ChargesWaitByTheCount(w: World, now: int, c: Cleanup)
    requires Reachable(w, now) && c in w.workers && Charged(w.tables, c)
    ensures c.app in w.tables.rows && w.tables.rows[c.app].id == c.id && w.tables.rows[c.app].cleanup.attempts == c.attempts < 12
    ensures RecordFailure(w.tables, c, now).rows == w.tables.rows[c.app := w.tables.rows[c.app].(cleanup := Recovery(c.attempts + 1, now + Backoff(c.attempts + 1), c.revision + 1))]
  {
    hide Reachable, TablesInv, EndsClean, ChargesMatch, AttemptsBounded, Backoff, RevokeTokens;
    EveryRunIsSafe(w, now);
    assert Reading(w.tables.rows, c);
  }

  // ------------------------------------------------------------------------ OAuth

  // Once an installation that went through disabling is uninstalled, its connection
  // is cut, no handshake of it is open, and this stays so.
  lemma RemoteUninstallStaysClean(w: World, now: int, more: seq<Turn>, id: Id)
    requires Reachable(w, now) && TimedFrom(now, more) && Ended(w.tables, id)
    ensures Clean(Run(w, more).oauth, id)
  {
    hide Reachable, Run, TablesInv, TimedFrom, EndOf, WorkersMatch, ChargesMatch, AttemptsBounded, Clean;
    EveryRunIsSafe(w, now);
    RunMovesForward(w, now, more);
    RunStaysSafe(w, now, more);
    assert forall n :: n in w.tables.notices ==> n in Run(w, more).tables.notices;
  }

  // ----------------------------------------------------------------------- notices

  // The outbox tells every installation's life: from pending on, strictly forward,
  // up to exactly the state it is in.
  lemma NoticesTellTheWholeLife(w: World, now: int, app: Id)
    requires Reachable(w, now) && app in w.tables.rows
    ensures var t := w.tables; var row := t.rows[app];
            && Notice(row.id, Pending) in t.notices && Notice(row.id, row.status) in t.notices
            && (forall n :: n in t.notices && n.installation == row.id ==> Phase(n.status) <= Phase(row.status))
            && Ordered(t.notices)
  {
    hide Reachable, UniqueIds, RowsMatch, GrantsMatch, TokensMatch, RoutesApart, BindingsApart, IntentsMatch, DecisionsMatch, ConsentsMatch, RequestsMatch, Ordered;
    ReachableTables(w, now);
  }
}
