// The install lifecycle answered by the registry of immutable releases: only remote apps
// are connected, and an uninstalled installation has no access left, on either path.
module LifecycleRegistry {
  import opened Base
  import opened Consent
  import opened LifecycleTables
  import opened LifecycleRules
  import opened LifecycleEffects
  import opened Connections
  import opened Lifecycle
  import opened LifecycleSafety
  import opened LifecycleResults
  import opened Registry
  import LifecycleRequests

  datatype Sys = Sys(releases: map<ReleaseKey, Signed>, world: World)

  datatype Move = Publishes(release: Signed) | Works(turn: Turn)

  const ORIGIN := Sys(map[], Lifecycle.START)

  // Apps whose releases come from registries of their own.
  predicate ManagedApp(app: Id) {
    app == PILOT_ID || ManagedId(app)
  }

  // The release an intent is prepared from: the manifest with its lists in order.
  predicate Derived(m: Manifest, r: Release) {
    && r.policy.LocalFixture? && r.app == m.app && r.version == m.version && r.profile == m.profile
    && Canonical(r.scopes, m.scopes) && Canonical(r.capabilities, m.capabilities) && r.source.None? && !r.ui && r.resource.None?
  }

  ghost predicate Released(releases: map<ReleaseKey, Signed>, r: Release) {
    ManagedApp(r.app) || (Get(releases, r.app).Ok? && Derived(Get(releases, r.app).value, r))
  }

  // Whatever a step was answered about an app is what the registry says of it.
  ghost predicate Answered(releases: map<ReleaseKey, Signed>, step: Step) {
    match step
    case Prepares(_, _, _, _, release, _) => release.Ok? ==> Released(releases, release.value)
    case Decides(_, _, _, _, _, current) => current.Ok? ==> Released(releases, current.value)
    case Consumes(_, _, _, _, current, _, _) => current.Ok? ==> Released(releases, current.value)
    case Activates(_, _, _, current, _, _) => current.Ok? ==> Released(releases, current.value)
    case IssuesToken(_, _, _, current, _, _) => current.Ok? ==> Released(releases, current.value)
    case ActsDirectly(_, _, action, answer, _, _) => answer.Ok? ==> answer == Get(releases, action.app)
    case BeginsConnect(_, m, _, _, _, _, _) => Get(releases, m.app) == Ok(m)
    case FinishesConnect(_, m) => Get(releases, m.app) == Ok(m)
    case _ => true
  }

  ghost function Moved(s: Sys, m: Move): Sys {
    match m
    case Publishes(release) => s.(releases := Publish(s.releases, release))
    case Works(turn) => if Answered(s.releases, turn.step) then s.(world := Lifecycle.Next(s.world, turn)) else s
  }

  ghost function Play(moves: seq<Move>): Sys {
    if moves == [] then ORIGIN else Moved(Play(moves[..|moves| - 1]), moves[|moves| - 1])
  }

  function ClockAfter(start: int, moves: seq<Move>): int {
    if moves == [] then start
    else
      var last := moves[|moves| - 1];
      if last.Works? then last.turn.later else ClockAfter(start, moves[..|moves| - 1])
  }

  // Clock readings never go back.
  predicate Clocked(start: int, moves: seq<Move>) {
    moves == [] ||
    (var rest, last := moves[..|moves| - 1], moves[|moves| - 1];
     Clocked(start, rest) && (last.Works? ==> ClockAfter(start, rest) <= last.turn.now <= last.turn.later))
  }

  // -------------------------------------------------------------------- invariant

  predicate RemoteApp(releases: map<ReleaseKey, Signed>, app: Id) {
    var k := ReleaseKey(app, VERSION);
    k in releases && Verified(releases[k]) && releases[k].manifest.profile.LocalRemote?
  }

  predicate Standing(releases: map<ReleaseKey, Signed>, r: Release) {
    var k := ReleaseKey(r.app, VERSION);
    ManagedApp(r.app) || (k in releases && Derived(releases[k].manifest, r))
  }

  ghost predicate IntentsStand(releases: map<ReleaseKey, Signed>, intents: map<Id, Intent>) {
    forall i :: i in intents ==> Standing(releases, intents[i].release)
  }

  // Who has a row was in the registry, or is none of its apps.
  ghost predicate RowsStand(releases: map<ReleaseKey, Signed>, rows: map<Id, Row>) {
    forall a :: a in rows ==> ManagedApp(a) || ReleaseKey(a, VERSION) in releases
  }

  ghost predicate InService(releases: map<ReleaseKey, Signed>, rows: map<Id, Row>, id: Id) {
    exists a :: a in rows && rows[a].id == id && RemoteApp(releases, a) && !rows[a].status.Uninstalled?
  }

  // There is a connection, or a handshake that may establish one.
  ghost predicate Opened(o: OAuth, id: Id) {
    LinkOf(o, id).Connected? || exists h :: h in o.states && o.states[h].installation == id && !o.states[h].used
  }

  ghost predicate OpenedInService(releases: map<ReleaseKey, Signed>, w: World) {
    forall id :: Opened(w.oauth, id) ==> InService(releases, w.tables.rows, id)
  }

  // A remote app is uninstalled only through disabling.
  ghost predicate EndsThrough(releases: map<ReleaseKey, Signed>, t: Tables) {
    forall a :: a in t.rows && RemoteApp(releases, a) && t.rows[a].status.Uninstalled? ==> Notice(t.rows[a].id, Disabling) in t.notices
  }

  ghost predicate Inv(s: Sys) {
    && Keyed(s.releases) && IntentsStand(s.releases, s.world.tables.intents) && RowsStand(s.releases, s.world.tables.rows)
    && OpenedInService(s.releases, s.world) && EndsThrough(s.releases, s.world.tables)
  }

  // ------------------------------------------------------------------ publication

  lemma RemoteIsNotManaged(releases: map<ReleaseKey, Signed>, app: Id)
    requires Keyed(releases) && RemoteApp(releases, app)
    ensures !ManagedApp(app)
  {
    assert app == REMOTE_ID;
    assert REMOTE_ID[0] != "app_"[0];
  }

  lemma PublicationKeeps(s: Sys, release: Signed)
    requires Inv(s)
    ensures Inv(s.(releases := Publish(s.releases, release)))
  {
    hide Verified, Derived, ManagedApp, Opened;
    var after := Publish(s.releases, release);
    PublishKeeps(s.releases, release);
    forall a | a in s.world.tables.rows && RemoteApp(after, a)
      ensures RemoteApp(s.releases, a)
    {
      RemoteIsNotManaged(after, a);
    }
    forall id | InService(s.releases, s.world.tables.rows, id)
      ensures InService(after, s.world.tables.rows, id)
    {
      var a :| a in s.world.tables.rows && s.world.tables.rows[a].id == id && RemoteApp(s.releases, a) && !s.world.tables.rows[a].status.Uninstalled?;
      assert RemoteApp(after, a);
    }
  }

  // ------------------------------------------------------------------------ tables

  lemma AnswerStands(releases: map<ReleaseKey, Signed>, r: Release)
    requires Keyed(releases) && Released(releases, r)
    ensures Standing(releases, r)
  {
    hide Verified, Derived, ManagedApp, Get;
    if !ManagedApp(r.app) {
      AnswerIsTheRow(releases, r.app);
    }
  }

  // A consented row of a remote app was consented to as remote.
  lemma ConsentedAsRemote(s: Sys, now: int, app: Id)
    requires Inv(s) && Kernel(s.world.tables, now) && app in s.world.tables.rows && RemoteApp(s.releases, app) && s.world.tables.rows[app].intent != ""
    ensures var t := s.world.tables; t.rows[app].id in t.consumptions && t.consumptions[t.rows[app].id].release.profile.LocalRemote?
  {
    hide UniqueIds, GrantsMatch, TokensMatch, RoutesApart, BindingsApart, IntentsMatch, DecisionsMatch, NoticesMatch, Verified, ManagedApp, Opened, Shaped, Canonical, Routed;
    RemoteIsNotManaged(s.releases, app);
    var t := s.world.tables;
    assert Agreed(t.consumptions[t.rows[app].id], t.intents);
    assert Standing(s.releases, t.consumptions[t.rows[app].id].release);
  }

  // No step but a confirmed and committed cleanup takes an installation of a remote app
  // out of service.
  ghost predicate EndedBy(t: Tables, step: Step, id: Id) {
    step.CleansUp? && step.reach.Confirmed? && step.committed && Cleanable(t, step.c) && step.c.id == id
  }

  ghost predicate AsRemote(releases: map<ReleaseKey, Signed>, t: Tables, step: Step) {
    && (forall a :: a in t.rows && RemoteApp(releases, a) && t.rows[a].intent != "" ==> t.rows[a].id in t.consumptions && t.consumptions[t.rows[a].id].release.profile.LocalRemote?)
    && (step.ActsDirectly? && step.answer.Ok? && RemoteApp(releases, step.action.app) ==> step.answer.value.profile.LocalRemote?)
  }

  lemma StaysInService(releases: map<ReleaseKey, Signed>, t: Tables, u: Tables, e: Effect, step: Step, now: int, id: Id)
    requires Kernel(t, now) && Explains(e, t, u, now) && Possible(t, step, e) && AsRemote(releases, t, step)
    requires InService(releases, t.rows, id) && !EndedBy(t, step, id)
    ensures InService(releases, u.rows, id)
  {
    hide UniqueIds, GrantsMatch, TokensMatch, RoutesApart, BindingsApart, IntentsMatch, DecisionsMatch, ConsentsMatch, NoticesMatch, Agreed, CapabilityBusy, BindingBusy, RevokeTokens, Consumed, Routed, Held, Unheard, RemoteApp;
    var a :| a in t.rows && t.rows[a].id == id && RemoteApp(releases, a) && !t.rows[a].status.Uninstalled?;
    assert a in u.rows && u.rows[a].id == id && !u.rows[a].status.Uninstalled?;
  }

  lemma StillEndsThrough(releases: map<ReleaseKey, Signed>, t: Tables, u: Tables, e: Effect, step: Step, now: int)
    requires Kernel(t, now) && Explains(e, t, u, now) && Possible(t, step, e) && AsRemote(releases, t, step) && EndsThrough(releases, t)
    ensures EndsThrough(releases, u)
  {
    hide UniqueIds, GrantsMatch, TokensMatch, RoutesApart, BindingsApart, IntentsMatch, DecisionsMatch, ConsentsMatch, Ordered, Agreed, CapabilityBusy, BindingBusy, RevokeTokens, Consumed, Routed, Held, Unheard, RemoteApp;
  }

  lemma StillStanding(releases: map<ReleaseKey, Signed>, t: Tables, u: Tables, e: Effect, step: Step, now: int)
    requires Kernel(t, now) && Explains(e, t, u, now) && Possible(t, step, e) && Keyed(releases) && Answered(releases, step)
    requires IntentsStand(releases, t.intents) && RowsStand(releases, t.rows)
    ensures IntentsStand(releases, u.intents) && RowsStand(releases, u.rows)
  {
    hide UniqueIds, RowsMatch, GrantsMatch, TokensMatch, RoutesApart, BindingsApart, IntentsMatch, DecisionsMatch, NoticesMatch, CapabilityBusy, BindingBusy, RevokeTokens, Routed, Unheard, Verified, Get, Derived, ManagedApp, Shaped;
    if step.Prepares? && step.release.Ok? {
      AnswerStands(releases, step.release.value);
    }
    if step.ActsDirectly? && step.answer.Ok? {
      AnswerIsTheRow(releases, step.action.app);
    }
  }

  lemma AnsweredAsRemote(s: Sys, step: Step, now: int)
    requires Inv(s) && Kernel(s.world.tables, now) && Answered(s.releases, step)
    ensures AsRemote(s.releases, s.world.tables, step)
  {
    hide Kernel, Inv, RemoteApp, ManagedApp, Get, Opened;
    forall a | a in s.world.tables.rows && RemoteApp(s.releases, a) && s.world.tables.rows[a].intent != ""
      ensures var t := s.world.tables; t.rows[a].id in t.consumptions && t.consumptions[t.rows[a].id].release.profile.LocalRemote?
    {
      ConsentedAsRemote(s, now, a);
    }
    if step.ActsDirectly? && step.answer.Ok? && RemoteApp(s.releases, step.action.app) {
      AnswerIsRemote(s, step.action.app);
    }
  }

  lemma AnswerIsRemote(s: Sys, app: Id)
    requires Inv(s) && RemoteApp(s.releases, app) && Get(s.releases, app).Ok?
    ensures Get(s.releases, app).value.profile.LocalRemote?
  {
    hide Get, Verified, IntentsStand, RowsStand, OpenedInService, EndsThrough;
    AnswerIsTheRow(s.releases, app);
  }

  // ------------------------------------------------------------------------- OAuth

  lemma CleaningOpensNothing(w: World, c: Cleanup, reach: Reach, committed: bool, now: int, id: Id)
    requires Opened(CleanUpWith(w, c, reach, committed, now).oauth, id)
    ensures Opened(w.oauth, id)
  {
    hide CompleteCleanup, CleanupKey, Cleanable;
  }

  lemma UsingOpensNothing(o: OAuth, hash: Id, actor: Id, session: string, now: int, id: Id)
    requires Opened(UseState(o, hash, actor, session, now).0, id)
    ensures Opened(o, id)
  {
  }

  lemma OpenedOnlyFor(o: OAuth, p: OAuth, id: Id, other: Id)
    requires OnlyFor(o, p, id) && Opened(p, other) && !Opened(o, other)
    ensures other == id
  {
  }

  // Access is opened only at the gate.
  lemma OpenedAtTheGate(w: World, turn: Turn, id: Id)
    requires Enabled(w, turn) && Opened(Next(w, turn).oauth, id) && !Opened(w.oauth, id)
    ensures (turn.step.BeginsConnect? || turn.step.FinishesConnect?) && turn.step.id == id && Gate(w.tables, id, turn.step.manifest) && Next(w, turn).tables == w.tables
  {
    hide Prepare, DecideIntent, Consume, ActivateAccess, IssueAppToken, UninstallAccess, DirectRun, RecordFailure, RetryCleanup, DueCleanup, Unheard, Gate, Charged, CleanUpWith, Begin, UseState, OnlyFor;
    match turn.step {
      case CleansUp(c, reach, committed) => CleaningOpensNothing(w, c, reach, committed, turn.now, id);
      case UsesState(hash, actor, session) => UsingOpensNothing(w.oauth, hash, actor, session, turn.now, id);
      case BeginsConnect(own, _, hash, actor, session, key, expiresAt) =>
        BeginIsFor(w.oauth, own, hash, actor, session, key, expiresAt, turn.now);
        OpenedOnlyFor(w.oauth, Next(w, turn).oauth, own, id);
      case _ =>
    }
  }

  lemma GateMeansService(releases: map<ReleaseKey, Signed>, t: Tables, id: Id, m: Manifest)
    requires Keyed(releases) && Gate(t, id, m) && Get(releases, m.app) == Ok(m)
    ensures InService(releases, t.rows, id)
  {
    hide Get, Verified, HasActiveGrant;
    AnswerIsTheRow(releases, m.app);
    HolderHolds(t.rows, id);
    assert RemoteApp(releases, m.app);
  }

  // The confirmed cleanup that takes an installation out of service closes its access.
  lemma EndingCloses(w: World, turn: Turn, id: Id)
    requires Enabled(w, turn) && EndedBy(w.tables, turn.step, id)
    ensures Next(w, turn) == w || !Opened(Next(w, turn).oauth, id)
  {
    hide CompleteCleanup, CleanupKey, Cleanable;
  }

  // -------------------------------------------------------------------------- steps

  lemma StaysOpenedInService(s: Sys, turn: Turn, e: Effect)
    requires Inv(s) && Enabled(s.world, turn) && Answered(s.releases, turn.step) && Kernel(s.world.tables, turn.later)
    requires var t, u := s.world.tables, Next(s.world, turn).tables; Explains(e, t, u, turn.later) && Possible(t, turn.step, e)
    ensures OpenedInService(s.releases, Next(s.world, turn))
  {
    hide Kernel, Explains, Possible, AsRemote, InService, Opened, Enabled, Next, IntentsStand, RowsStand, EndsThrough, EndedBy, Get;
    var v := Next(s.world, turn);
    forall id | Opened(v.oauth, id)
      ensures InService(s.releases, v.tables.rows, id)
    {
      if !Opened(s.world.oauth, id) {
        OpenedAtTheGate(s.world, turn, id);
        GateMeansService(s.releases, s.world.tables, id, turn.step.manifest);
      } else if EndedBy(s.world.tables, turn.step, id) {
        EndingCloses(s.world, turn, id);
      } else {
        AnsweredAsRemote(s, turn.step, turn.later);
        StaysInService(s.releases, s.world.tables, v.tables, e, turn.step, turn.later, id);
      }
    }
  }

  lemma WorkKeeps(s: Sys, turn: Turn)
    requires Inv(s) && Safe(s.world, turn.now) && turn.now <= turn.later
    ensures Inv(Moved(s, Works(turn)))
  {
    hide Kernel, Explains, Possible, AsRemote, OpenedInService, Enabled, Next, IntentsStand, RowsStand, EndsThrough, Answered, Keyed, WorkersMatch, ChargesMatch, EndsClean, AttemptsBounded, RequestsMatch;
    if Answered(s.releases, turn.step) {
      if Enabled(s.world, turn) {
        var t, u := s.world.tables, Next(s.world, turn).tables;
        var e := StepEffect(s.world, turn, u);
        TimePasses(t, turn.now, turn.later);
        AnsweredAsRemote(s, turn.step, turn.later);
        StillStanding(s.releases, t, u, e, turn.step, turn.later);
        StillEndsThrough(s.releases, t, u, e, turn.step, turn.later);
        StaysOpenedInService(s, turn, e);
      } else {
        NotEnabledStays(s.world, turn);
      }
    }
  }

  lemma NotEnabledStays(w: World, turn: Turn)
    requires !Enabled(w, turn)
    ensures Next(w, turn) == w
  {
    hide Enabled;
  }

  // What the lifecycle reaches under the registry it reaches under free answers, so that
  // every result about its runs holds here as well.
  lemma {:induction false} PlayIsReachable(start: int, moves: seq<Move>)
    requires Clocked(start, moves)
    ensures Reachable(Play(moves).world, ClockAfter(start, moves))
  {
    hide Reachable, Next, Answered;
    if moves == [] {
      StartIsReachable(start);
    } else {
      var rest, last := moves[..|moves| - 1], moves[|moves| - 1];
      PlayIsReachable(start, rest);
      var w, now := Play(rest).world, ClockAfter(start, rest);
      if last.Works? {
        ReachOneMore(w, now, last.turn);
        ReachableLater(w, now, last.turn.later);
      }
    }
  }

  lemma StartIsReachable(now: int)
    ensures Reachable(Lifecycle.START, now)
  {
    assert TimedFrom(now, []) && EndOf(now, []) == now && Run(Lifecycle.START, []) == Lifecycle.START;
  }

  lemma ReachOneMore(w: World, now: int, turn: Turn)
    requires Reachable(w, now) && now <= turn.now <= turn.later
    ensures Reachable(Lifecycle.Next(w, turn), turn.later)
  {
    hide Next;
    var start, turns :| TimedFrom(start, turns) && EndOf(start, turns) <= now && Run(Lifecycle.START, turns) == w;
    var more := turns + [turn];
    assert more[..|more| - 1] == turns && Run(Lifecycle.START, more) == Lifecycle.Next(w, turn);
    assert TimedFrom(if turns == [] then now else start, more) && EndOf(start, more) == turn.later;
  }

  lemma ReachableLater(w: World, now: int, later: int)
    requires Reachable(w, now) && now <= later
    ensures Reachable(w, later)
  {
    hide Run, TimedFrom, EndOf;
  }

  lemma {:induction false} PlayKeepsInv(start: int, moves: seq<Move>)
    requires Clocked(start, moves)
    ensures Inv(Play(moves))
  {
    hide Safe, Inv, Next, Answered, Reachable;
    if moves == [] {
      OriginInv();
    } else {
      var rest, last := moves[..|moves| - 1], moves[|moves| - 1];
      PlayKeepsInv(start, rest);
      var s, now := Play(rest), ClockAfter(start, rest);
      match last
      case Publishes(release) => PublicationKeeps(s, release);
      case Works(turn) =>
        PlayIsReachable(start, rest);
        EveryRunIsSafe(s.world, now);
        SafeLater(s.world, now, turn.now);
        WorkKeeps(s, turn);
    }
  }

  lemma OriginInv()
    ensures Inv(ORIGIN)
  {
  }

  // -------------------------------------------------------------- what may be installed

  lemma ReadComesBeforeWrite()
    ensures Before("read", "write") && Before("orders.read", "payments.read") && Before("orders.read", "shipping.read")
  {
  }

  lemma ThreeAreSorted(first: string, prefix: string)
    requires Before(first, prefix + "read")
    ensures Sorted([first, prefix + "read", prefix + "write"])
  {
    hide Before;
    ReadComesBeforeWrite();
    BeforeInside(prefix, "read", "write");
    BeforeIsTotal(first, prefix + "read");
    BeforeIsTotal(prefix + "read", prefix + "write");
  }

  lemma ListsAreSorted()
    ensures Sorted(["orders.read", "payments.read", "payments.write"]) && Sorted(["orders.read", "shipping.read", "shipping.write"])
  {
    hide Before, Sorted;
    ReadComesBeforeWrite();
    assert "payments." + "read" == "payments.read" && "payments." + "write" == "payments.write";
    assert "shipping." + "read" == "shipping.read" && "shipping." + "write" == "shipping.write";
    ThreeAreSorted("orders.read", "payments.");
    ThreeAreSorted("orders.read", "shipping.");
  }

  lemma SortedIsCanonical(scopes: seq<string>, declared: seq<string>)
    requires Canonical(scopes, declared) && Sorted(declared)
    ensures scopes == declared
  {
    hide Before;
    SortedIsUnique(scopes, declared);
  }

  // Whatever the registry answers is on the closed list: the release of every app it knows
  // may be installed, activated and, but for shipping providers, given tokens.
  lemma RegisteredIsEligible(releases: map<ReleaseKey, Signed>, r: Release, special: Result<()>)
    requires Keyed(releases) && Released(releases, r) && !ManagedApp(r.app) && (r.profile.ShippingFixture? ==> r.binding.Some?)
    ensures Eligible(r, Ok(r), special).Ok?
  {
    hide Before, Get, Sorted, ManagedApp, Eligible;
    AnswerIsTheRow(releases, r.app);
    ListsAreSorted();
    var m := releases[ReleaseKey(r.app, VERSION)].manifest;
    OneIsSorted(m.scopes);
    OneIsSorted(m.capabilities);
    SortedIsCanonical(r.scopes, m.scopes);
    SortedIsCanonical(r.capabilities, m.capabilities);
    LifecycleRequests.ListedIsEligibleExactlyWhen(r, Ok(r), special);
  }

  lemma OneIsSorted(s: seq<string>)
    ensures |s| <= 1 ==> Sorted(s)
  {
  }

  // ------------------------------------------------------------------------ results

  // In every state of every play, whatever is published when: who is connected, or may
  // still become so through an open handshake, is an installation of a remote app that is
  // not uninstalled yet.
  lemma OpenedMeansInService(start: int, moves: seq<Move>, id: Id)
    requires Clocked(start, moves) && Opened(Play(moves).world.oauth, id)
    ensures var s := Play(moves); InService(s.releases, s.world.tables.rows, id)
  {
    hide Play, Clocked, Opened, InService;
    PlayKeepsInv(start, moves);
  }

  // An uninstalled installation has no connection and no open handshake, on either
  // path and also after another one has taken its place.
  lemma UninstalledIsCutOff(start: int, moves: seq<Move>, id: Id)
    requires Clocked(start, moves) && StatusOf(Play(moves).world.tables.rows, id).Uninstalled?
    ensures !Opened(Play(moves).world.oauth, id)
  {
    hide Play, Clocked, Opened, RemoteApp, Reachable, RequestsMatch, RowsMatch, GrantsMatch, TokensMatch, RoutesApart, BindingsApart, IntentsMatch, ConsentsMatch, NoticesMatch, DecisionsMatch;
    var s, now := Play(moves), ClockAfter(start, moves);
    PlayIsReachable(start, moves);
    ReachableTables(s.world, now);
    if Opened(s.world.oauth, id) {
      OpenedMeansInService(start, moves, id);
      var a :| a in s.world.tables.rows && s.world.tables.rows[a].id == id && RemoteApp(s.releases, a) && !s.world.tables.rows[a].status.Uninstalled?;
      HolderIs(s.world.tables.rows, a);
    }
  }

  // A consent names what the registry says for good: the uninstall of the consent path,
  // which reads the consented release, and everything that asks the registry read the
  // same manifest.
  lemma ConsentedIsRegistered(start: int, moves: seq<Move>, id: Id)
    requires Clocked(start, moves)
    requires var s := Play(moves); id in s.world.tables.consumptions && var app := s.world.tables.consumptions[id].release.app; !ManagedApp(app) && Get(s.releases, app).Ok?
    ensures var s := Play(moves); var r := s.world.tables.consumptions[id].release; Derived(Get(s.releases, r.app).value, r)
  {
    hide Play, Clocked, ManagedApp, Derived, Get, Verified, Reachable, OpenedInService, EndsThrough, RowsStand, RequestsMatch, UniqueIds, RowsMatch, GrantsMatch, TokensMatch, RoutesApart, BindingsApart, IntentsMatch, NoticesMatch, DecisionsMatch, Shaped;
    var s, now := Play(moves), ClockAfter(start, moves);
    PlayIsReachable(start, moves);
    ReachableTables(s.world, now);
    PlayKeepsInv(start, moves);
    var c := s.world.tables.consumptions[id];
    assert Agreed(c, s.world.tables.intents);
    assert Standing(s.releases, s.world.tables.intents[c.intent].release);
    AnswerIsTheRow(s.releases, c.release.app);
  }

  // The uninstalled row of a remote app has had its connection cut.
  lemma RemoteAppEndsClean(start: int, moves: seq<Move>, app: Id)
    requires Clocked(start, moves)
    requires var s := Play(moves); app in s.world.tables.rows && RemoteApp(s.releases, app) && s.world.tables.rows[app].status.Uninstalled?
    ensures Clean(Play(moves).world.oauth, Play(moves).world.tables.rows[app].id)
  {
    hide Play, Clocked, Opened, RemoteApp, Reachable, OpenedInService, RequestsMatch, WorkersMatch, ChargesMatch, AttemptsBounded, Clean, UniqueIds, RowsMatch, GrantsMatch, TokensMatch, RoutesApart, BindingsApart, IntentsMatch, ConsentsMatch, DecisionsMatch, Ordered;
    PlayIsReachable(start, moves);
    EveryRunIsSafe(Play(moves).world, ClockAfter(start, moves));
    PlayKeepsInv(start, moves);
  }
}
