// What one uninstall does to an OAuth connection, whatever the registry answers: on the
// consent path the consented release decides, on the direct path the manifest read for
// the removal. Under the registry of immutable releases the two agree (LifecycleRegistry).
module LifecycleLinks {
  import opened Base
  import opened Consent
  import opened LifecycleTables
  import opened LifecycleRules
  import LifecycleSteps
  import opened LifecycleEffects
  import opened Connections
  import opened Lifecycle
  import opened LifecycleSafety
  import opened LifecycleResults

  // ---------------------------------------------------------------- consent path

  // An installation consented to as remote is uninstalled only through disabling.
  ghost predicate RemoteConsentsEnd(t: Tables) {
    forall id :: id in t.consumptions && t.consumptions[id].release.profile.LocalRemote? && Notice(id, Uninstalled) in t.notices ==> Notice(id, Disabling) in t.notices
  }

  lemma EffectKeepsRemoteEnds(e: Effect, t: Tables, u: Tables, now: int, step: Step)
    requires Kernel(t, now) && Explains(e, t, u, now) && Possible(t, step, e) && RemoteConsentsEnd(t)
    ensures RemoteConsentsEnd(u)
  {
    hide UniqueIds, GrantsMatch, TokensMatch, RoutesApart, BindingsApart, IntentsMatch, DecisionsMatch, ConsentsMatch, Ordered, Agreed, CapabilityBusy, BindingBusy, RevokeTokens, Consumed, Routed, Held;
    forall id | id in u.consumptions && u.consumptions[id].release.profile.LocalRemote? && Notice(id, Uninstalled) in u.notices
      ensures Notice(id, Disabling) in u.notices
    {
      if Notice(id, Uninstalled) in t.notices {
        assert id in t.consumptions && u.consumptions[id] == t.consumptions[id];
      }
    }
  }

  lemma {:induction false} RunKeepsRemoteEnds(w: World, now: int, turns: seq<Turn>)
    requires Safe(w, now) && RemoteConsentsEnd(w.tables) && TimedFrom(now, turns)
    ensures RemoteConsentsEnd(Run(w, turns).tables)
  {
    hide RemoteConsentsEnd, Next, Explains, Possible, TimedFrom, EndOf, WorkersMatch, ChargesMatch, EndsClean, AttemptsBounded, Kernel, RequestsMatch;
    if turns != [] {
      var rest, last := turns[..|turns| - 1], turns[|turns| - 1];
      TimedPrefix(now, turns);
      RunKeepsRemoteEnds(w, now, rest);
      RunStaysSafe(w, now, rest);
      SafeLater(Run(w, rest), EndOf(now, rest), last.now);
      var t, u := Run(w, rest).tables, Run(w, turns).tables;
      var e := StepEffect(Run(w, rest), last, u);
      TimePasses(t, last.now, last.later);
      EffectKeepsRemoteEnds(e, t, u, last.later, last.step);
    }
  }

  lemma ReachableRemoteEnds(w: World, now: int)
    requires Reachable(w, now)
    ensures RemoteConsentsEnd(w.tables)
  {
    hide Run, TimedFrom, EndOf, Safe;
    var start, turns :| TimedFrom(start, turns) && EndOf(start, turns) <= now && Run(START, turns) == w;
    StartIsSafe(start);
    RunKeepsRemoteEnds(START, start, turns);
  }

  // An id out of use was announced as such.
  lemma OutOfServiceWasAnnounced(t: Tables, now: int, id: Id)
    requires Kernel(t, now) && id in t.consumptions && StatusOf(t.rows, id).Uninstalled?
    ensures Notice(id, Uninstalled) in t.notices
  {
    hide UniqueIds, RowsMatch, GrantsMatch, TokensMatch, RoutesApart, BindingsApart, IntentsMatch, DecisionsMatch, ConsentsMatch, Ordered;
    assert !Held(t.rows, id) ==> Notice(id, Pending) in t.notices;
  }

  // An installation consented to as remote, once uninstalled, has its connection cut
  // and no handshake open, now and after any further turns, whatever the registry
  // says about its app by then, and also after another one has taken its place.
  lemma RemoteConsentEndsClean(w: World, now: int, more: seq<Turn>, id: Id)
    requires Reachable(w, now) && TimedFrom(now, more)
    requires id in w.tables.consumptions && w.tables.consumptions[id].release.profile.LocalRemote? && StatusOf(w.tables.rows, id).Uninstalled?
    ensures Clean(Run(w, more).oauth, id)
  {
    hide Reachable, Run, Clean, TimedFrom, EndOf, StatusOf, Kernel, RequestsMatch, WorkersMatch, ChargesMatch, EndsClean, AttemptsBounded;
    EveryRunIsSafe(w, now);
    ReachableRemoteEnds(w, now);
    OutOfServiceWasAnnounced(w.tables, now, id);
    RemoteUninstallStaysClean(w, now, more, id);
  }

  // The exact condition on the consent path: of whatever could be connected, an uninstall
  // leaves uninstalled and still connected exactly what was not consented to as remote;
  // what the registry says at that moment plays no part.
  lemma UninstallStrandsExactlyWhen(w: World, now: int, owner: Owner, key: string, id: Id, later: int, v: World)
    requires Reachable(w, now) && id in w.tables.consumptions && w.tables.consumptions[id].owner == owner && OwnerKey(owner, key) !in w.tables.requests
    requires InUse(StatusOf(w.tables.rows, id)) && LinkOf(w.oauth, id).Connected?
    requires v == w.(tables := UninstallAccess(w.tables, owner, key, id, later).0)
    ensures StatusOf(v.tables.rows, id).Uninstalled? && LinkOf(v.oauth, id).Connected? <==> !w.tables.consumptions[id].release.profile.LocalRemote?
  {
    hide Reachable, ReadAccess, Retired, Kernel, RequestsMatch, Holder;
    ReachableTables(w, now);
    AccessNeverDrifts(w, now, id);
    HeldWhenInUse(w.tables, id);
    var app := Holder(w.tables.rows, id).value;
    HolderHolds(w.tables.rows, id);
    RetiredStatus(w.tables, app, if w.tables.consumptions[id].release.profile.LocalRemote? then Disabling else Uninstalled, later, now);
  }

  lemma RetiredStatus(t: Tables, app: Id, status: Status, later: int, now: int)
    requires Kernel(t, now) && app in t.rows && InUse(t.rows[app].status) && !InUse(status)
    ensures StatusOf(Retired(t, app, status, later).rows, t.rows[app].id) == status
  {
    hide Kernel, Retired, StatusOf, Holder, CapabilityBusy, BindingBusy, RevokeTokens;
    KernelIsUnique(t, now);
    var row := Renewed(t, app, t.rows[app].(status := status, scopes := [], capabilities := []), later);
    var u := Retired(t, app, status, later);
    LifecycleSteps.RetiredMoves(t, app, status, later, u, row);
    assert UniqueIds(u.rows) by { SameIdsUnique(t.rows, app, row); }
    HolderIs(u.rows, app);
  }

  lemma SameIdsUnique(rows: map<Id, Row>, app: Id, row: Row)
    requires UniqueIds(rows) && app in rows && row.id == rows[app].id
    ensures UniqueIds(rows[app := row])
  {
  }

  // ----------------------------------------------------------------- direct path

  lemma UpdateRowOutcome(t: Tables, app: Id, row: Row)
    requires app in t.rows
    ensures UpdateRow(t, app, row).rows == t.rows[app := row]
  {
    hide Revoke;
    LifecycleSteps.TriggerTouches(t.(rows := t.rows[app := row]), t.rows[app].id);
  }

  lemma PutRowOutcome(t: Tables, app: Id, row: Row, now: int)
    ensures PutRow(t, app, row, now).rows == t.rows[app := Renewed(t, app, row, now)]
  {
    hide UpdateRow, Renewed;
    if app in t.rows {
      UpdateRowOutcome(t, app, Renewed(t, app, row, now));
    }
  }

  lemma ChangeOutcome(t: Tables, at: DirectKey, body: DirectBody, app: Id, next: Row, now: int, u: Tables)
    requires app in t.rows && !next.status.Active? && u == Change(t, at, body, app, next, true, now).0
    ensures u.rows == t.rows[app := Renewed(t, app, next.(intent := t.rows[app].intent), now)]
  {
    hide PutRow, Renewed, AppBusy;
    PutRowOutcome(t, app, next.(intent := t.rows[app].intent), now);
  }

  lemma RemovalOutcome(t: Tables, user: Id, key: string, app: Id, m: Manifest, ready: Result<()>, newId: Id, now: int, u: Tables)
    requires app in t.rows && InUse(t.rows[app].status) && t.rows[app].intent == "" && DirectKey(user, key) !in t.receipts
    requires !m.profile.KurirFixture? && !m.profile.ShippingFixture?
    requires u == DirectRun(t, user, key, Remove(app), Ok(m), ready, newId, now).0
    ensures u.rows.Keys == t.rows.Keys && u.rows[app].id == t.rows[app].id && u.rows[app].status == (if m.profile.LocalRemote? then Disabling else Uninstalled)
  {
    hide Change;
    var next := t.rows[app].(status := if m.profile.LocalRemote? then Disabling else Uninstalled, scopes := [], capabilities := []);
    ChangeOutcome(t, DirectKey(user, key), Act(Remove(app)), app, next, now, u);
  }

  // The exact condition on the direct path: of whatever could be connected, a removal
  // leaves uninstalled and still connected exactly what it did not read the remote
  // profile for.
  lemma RemovalStrandsExactlyWhen(w: World, user: Id, key: string, app: Id, m: Manifest, ready: Result<()>, newId: Id, now: int, v: World)
    requires app in w.tables.rows && InUse(w.tables.rows[app].status) && w.tables.rows[app].intent == "" && LinkOf(w.oauth, w.tables.rows[app].id).Connected?
    requires DirectKey(user, key) !in w.tables.receipts && !m.profile.KurirFixture? && !m.profile.ShippingFixture?
    requires v == w.(tables := DirectRun(w.tables, user, key, Remove(app), Ok(m), ready, newId, now).0)
    ensures app in v.tables.rows && v.tables.rows[app].id == w.tables.rows[app].id
    ensures v.tables.rows[app].status.Uninstalled? && LinkOf(v.oauth, v.tables.rows[app].id).Connected? <==> !m.profile.LocalRemote?
  {
    hide DirectRun;
    RemovalOutcome(w.tables, user, key, app, m, ready, newId, now, v.tables);
  }

  // ------------------------------------------------------------------ no repair

  // Out of use, a link stays as it is.
  lemma NextKeepsLink(w: World, turn: Turn, id: Id)
    requires Safe(w, turn.now) && StatusOf(w.tables.rows, id).Uninstalled?
    ensures LinkOf(Next(w, turn).oauth, id) == LinkOf(w.oauth, id)
  {
    hide Prepare, DecideIntent, Consume, ActivateAccess, IssueAppToken, UninstallAccess, DirectRun, CompleteCleanup, RecordFailure, RetryCleanup, HasActiveGrant,
      RowsMatch, GrantsMatch, TokensMatch, RoutesApart, BindingsApart, IntentsMatch, DecisionsMatch, ConsentsMatch, NoticesMatch, RequestsMatch, WorkersMatch, ChargesMatch, EndsClean, AttemptsBounded, Unheard, DueCleanup;
    if turn.step.CleansUp? && Cleanable(w.tables, turn.step.c) {
      HolderIs(w.tables.rows, turn.step.c.app);
    }
  }

  lemma {:induction false} RunKeepsLink(w: World, now: int, more: seq<Turn>, id: Id)
    requires Safe(w, now) && TimedFrom(now, more) && Known(w.tables, id) && StatusOf(w.tables.rows, id).Uninstalled?
    ensures LinkOf(Run(w, more).oauth, id) == LinkOf(w.oauth, id)
  {
    hide Safe, Next, TimedFrom, EndOf, LinkOf, StatusOf, Known;
    if more != [] {
      var rest, last := more[..|more| - 1], more[|more| - 1];
      TimedPrefix(now, more);
      RunKeepsLink(w, now, rest, id);
      RunMovesForward(w, now, rest);
      RunStaysSafe(w, now, rest);
      SafeLater(Run(w, rest), EndOf(now, rest), last.now);
      NextKeepsLink(Run(w, rest), last, id);
    }
  }

  // Once an installation is uninstalled no later turn touches its connection: nothing
  // connects it again, and nothing would cut what an uninstall had left connected.
  lemma UninstallSettlesTheLink(w: World, now: int, more: seq<Turn>, id: Id)
    requires Reachable(w, now) && TimedFrom(now, more) && Known(w.tables, id) && StatusOf(w.tables.rows, id).Uninstalled?
    ensures LinkOf(Run(w, more).oauth, id) == LinkOf(w.oauth, id)
  {
    hide Reachable, Safe, Run, TimedFrom, LinkOf, StatusOf, Known;
    EveryRunIsSafe(w, now);
    RunKeepsLink(w, now, more, id);
  }
}
