// Over any run, what is active was ready: an installation that depends on something
// outside went into service in a turn that was told it is ready.
module LifecycleReadiness {
  import opened Base
  import opened Consent
  import opened LifecycleTables
  import opened LifecycleRules
  import opened LifecycleEffects
  import opened Lifecycle
  import opened LifecycleSafety

  // This turn put the installation into service: its own activation, with a ready
  // dependency if the consented profile has one, or a direct start, ready if the manifest
  // is the remote one.
  ghost predicate PutInService(t: Tables, step: Step, app: Id, row: Row) {
    if row.intent != "" then
      && step.Activates? && step.id == row.id && row.id in t.consumptions
      && (var p := t.consumptions[row.id].release.profile;
          p.LocalRemote? || p.KurirFixture? || p.ShippingFixture? || p.ManagedShippingLocal? || p.ProviderAppLocal? ==> step.ready.Ok?)
    else
      step.ActsDirectly? && step.action == Start(app) && step.answer.Ok? && (step.answer.value.profile.LocalRemote? ==> step.ready.Ok?)
  }

  lemma BecomesActive(t: Tables, u: Tables, e: Effect, step: Step, now: int, app: Id)
    requires Kernel(t, now) && Explains(e, t, u, now) && Possible(t, step, e)
    requires app in u.rows && u.rows[app].status.Active?
    ensures (app in t.rows && t.rows[app].status.Active? && t.rows[app].id == u.rows[app].id && t.rows[app].intent == u.rows[app].intent) || PutInService(t, step, app, u.rows[app])
  {
    hide UniqueIds, GrantsMatch, TokensMatch, RoutesApart, BindingsApart, IntentsMatch, DecisionsMatch, ConsentsMatch, NoticesMatch, Agreed, CapabilityBusy, BindingBusy, RevokeTokens, Consumed, Routed, Held, Unheard;
  }

  // Some turn of the run put this row into service.
  ghost predicate WasPutInService(w: World, turns: seq<Turn>, app: Id, row: Row) {
    exists i :: 0 <= i < |turns| && Enabled(Run(w, turns[..i]), turns[i]) && PutInService(Run(w, turns[..i]).tables, turns[i].step, app, row)
  }

  ghost predicate SameService(a: Row, b: Row) {
    a.id == b.id && a.intent == b.intent
  }

  lemma StillPutInService(w: World, turns: seq<Turn>, app: Id, row: Row, later: Row)
    requires turns != [] && WasPutInService(w, turns[..|turns| - 1], app, row) && SameService(row, later)
    ensures WasPutInService(w, turns, app, later)
  {
    hide Run, Enabled;
    var rest := turns[..|turns| - 1];
    var i :| 0 <= i < |rest| && Enabled(Run(w, rest[..i]), rest[i]) && PutInService(Run(w, rest[..i]).tables, rest[i].step, app, row);
    assert rest[..i] == turns[..i] && rest[i] == turns[i];
    assert PutInService(Run(w, turns[..i]).tables, turns[i].step, app, later);
  }

  // Over every run: whatever is active was put into service by a turn that found it
  // ready, if it depends on anything.
  lemma {:induction false} ActiveWasReady(start: int, turns: seq<Turn>, app: Id)
    requires TimedFrom(start, turns)
    requires var rows := Run(START, turns).tables.rows; app in rows && rows[app].status.Active?
    ensures WasPutInService(START, turns, app, Run(START, turns).tables.rows[app])
  {
    hide Next, TimedFrom, EndOf, Explains, Possible, Kernel, RequestsMatch, WorkersMatch, ChargesMatch, EndsClean, AttemptsBounded, WasPutInService, PutInService, Enabled;
    if turns != [] {
      var rest, last := turns[..|turns| - 1], turns[|turns| - 1];
      TimedPrefix(start, turns);
      StartIsSafe(start);
      RunStaysSafe(START, start, rest);
      var w := Run(START, rest);
      SafeLater(w, EndOf(start, rest), last.now);
      var t, u := w.tables, Run(START, turns).tables;
      var e := StepEffect(w, last, u);
      TimePasses(t, last.now, last.later);
      BecomesActive(t, u, e, last.step, last.later, app);
      DisabledStays(w, last);
      if app in t.rows && t.rows[app].status.Active? && SameService(t.rows[app], u.rows[app]) {
        ActiveWasReady(start, rest, app);
        StillPutInService(START, turns, app, t.rows[app], u.rows[app]);
      } else {
        PutNow(turns, app, u.rows[app]);
      }
    } else {
      NothingActive(app);
    }
  }

  lemma DisabledStays(w: World, turn: Turn)
    ensures !Enabled(w, turn) ==> Next(w, turn) == w
  {
    hide Enabled;
  }

  lemma NothingActive(app: Id)
    ensures app !in Run(START, []).tables.rows
  {
  }

  lemma PutNow(turns: seq<Turn>, app: Id, row: Row)
    requires turns != []
    requires var w, last := Run(START, turns[..|turns| - 1]), turns[|turns| - 1];
             PutInService(w.tables, last.step, app, row) && Enabled(w, last)
    ensures WasPutInService(START, turns, app, row)
  {
    hide Run, Enabled, PutInService;
  }
}
