// What holds in every reachable state of the install lifecycle.
module LifecycleSafety {
  import opened Base
  import opened LifecycleTables
  import opened LifecycleRules
  import opened LifecycleSteps
  import opened LifecycleEffects
  import opened Connections
  import opened Lifecycle

  // A reading of a row is never ahead of it, and tells the attempts as long as the
  // revision has not moved.
  ghost predicate Reading(rows: map<Id, Row>, c: Cleanup) {
    c.attempts < MAX_ATTEMPTS &&
    forall a :: a in rows && rows[a].id == c.id ==>
      a == c.app && c.revision <= rows[a].cleanup.revision && (c.revision == rows[a].cleanup.revision ==> c.attempts == rows[a].cleanup.attempts)
  }

  ghost predicate WorkersMatch(t: Tables, workers: set<Cleanup>) {
    forall c :: c in workers ==> Known(t, c.id) && Reading(t.rows, c)
  }

  ghost predicate AttemptsBounded(rows: map<Id, Row>) {
    forall a :: a in rows ==> rows[a].cleanup.attempts <= MAX_ATTEMPTS && (!rows[a].status.Disabling? ==> rows[a].cleanup.attempts == 0)
  }

  // Every charge is behind the row's revision, and none was made twice.
  ghost predicate Behind(rows: map<Id, Row>, c: Charge) {
    forall a :: a in rows && rows[a].id == c.id ==> c.revision < rows[a].cleanup.revision
  }

  ghost predicate ChargesMatch(t: Tables, charges: seq<Charge>) {
    && (forall i :: 0 <= i < |charges| ==> Known(t, charges[i].id) && Behind(t.rows, charges[i]))
    && (forall i, j :: 0 <= i < j < |charges| ==> charges[i] != charges[j])
  }

  ghost predicate Ended(t: Tables, id: Id) {
    Notice(id, Disabling) in t.notices && Notice(id, Uninstalled) in t.notices
  }

  // Who went through disabling and is uninstalled has no access left.
  ghost predicate EndsClean(t: Tables, o: OAuth) {
    forall id :: Ended(t, id) ==> Clean(o, id)
  }

  ghost predicate Safe(w: World, now: int) {
    && TablesInv(w.tables, now) && "" !in w.tables.intents
    && WorkersMatch(w.tables, w.workers) && AttemptsBounded(w.tables.rows) && ChargesMatch(w.tables, w.charges)
    && EndsClean(w.tables, w.oauth)
  }

  // ---------------------------------------------------------- tables move forward

  // What the cleanup columns may do in one transaction: the app's revision never
  // falls, and attempts change only together with it.
  ghost predicate Renews(t: Tables, u: Tables) {
    && (forall a :: a in t.rows ==> a in u.rows && (t.rows[a] == u.rows[a] || t.rows[a].cleanup.revision < u.rows[a].cleanup.revision))
    && (forall a :: a in u.rows ==> (a in t.rows && t.rows[a].id == u.rows[a].id) || !Known(t, u.rows[a].id))
  }

  lemma RenewsKeepsReadings(t: Tables, u: Tables, workers: set<Cleanup>, charges: seq<Charge>)
    requires WorkersMatch(t, workers) && ChargesMatch(t, charges) && Renews(t, u) && t.notices <= u.notices
    ensures WorkersMatch(u, workers) && ChargesMatch(u, charges)
  {
    forall id | Known(t, id)
      ensures Known(u, id)
    {
      var n :| n in t.notices && n.installation == id;
      assert n in u.notices;
    }
    forall c | c in workers
      ensures Reading(u.rows, c)
    {
    }
    forall i | 0 <= i < |charges|
      ensures Behind(u.rows, charges[i])
    {
    }
  }

  lemma RowWriteRenews(t: Tables, u: Tables, app: Id, row: Row)
    requires u.rows == t.rows[app := row] && (app in t.rows ==> t.rows[app].cleanup.revision < row.cleanup.revision)
    requires (app in t.rows && t.rows[app].id == row.id) || !Known(t, row.id)
    ensures Renews(t, u)
  {
    hide Known;
  }

  lemma EffectRenews(e: Effect, t: Tables, u: Tables, now: int)
    requires Kernel(t, now) && Explains(e, t, u, now)
    ensures Renews(t, u) && (!e.Deciding? ==> u.intents == t.intents)
    ensures e.Deciding? ==> u.intents.Keys == t.intents.Keys + {e.intent}
    ensures AttemptsBounded(t.rows) && (e.Tending? ==> e.row.cleanup.attempts <= MAX_ATTEMPTS) ==> AttemptsBounded(u.rows)
  {
    hide Kernel, Renews, Agreed, CapabilityBusy, BindingBusy, RevokeTokens, Consumed, GrantFor;
    match e
    case Installing(app, row) =>
      assert !Known(t, row.id);
      RowWriteRenews(t, u, app, row);
    case Moving(app, row) => RowWriteRenews(t, u, app, row);
    case Tending(app, row) => RowWriteRenews(t, u, app, row);
    case _ => SameRowsRenew(t, u);
  }

  lemma SameRowsRenew(t: Tables, u: Tables)
    requires u.rows == t.rows
    ensures Renews(t, u)
  {
    hide Known;
  }

  // An installation that had been disabling ends only when its own row moves on.
  lemma EffectEnds(e: Effect, t: Tables, u: Tables, now: int, id: Id)
    requires Kernel(t, now) && Explains(e, t, u, now) && Ended(u, id) && !Ended(t, id)
    ensures e.Moving? && e.app in t.rows && t.rows[e.app].status.Disabling? && id == t.rows[e.app].id
  {
    hide UniqueIds, RowsMatch, GrantsMatch, TokensMatch, RoutesApart, BindingsApart, IntentsMatch, DecisionsMatch, ConsentsMatch, Ordered, Agreed, CapabilityBusy, BindingBusy, RevokeTokens, Consumed;
  }

  lemma EndsCleanKept(e: Effect, t: Tables, u: Tables, now: int, o: OAuth)
    requires Kernel(t, now) && Explains(e, t, u, now) && EndsClean(t, o)
    requires e.Moving? && e.app in t.rows && t.rows[e.app].status.Disabling? ==> Clean(o, t.rows[e.app].id)
    ensures EndsClean(u, o)
  {
    hide Kernel, Explains, Ended, Clean;
    forall id | Ended(u, id)
      ensures Clean(o, id)
    {
      if !Ended(t, id) {
        EffectEnds(e, t, u, now, id);
      }
    }
  }

  // A transaction with a known effect keeps everything about the tables.
  lemma TransactionKeeps(w: World, e: Effect, u: Tables, now: int, later: int)
    requires Safe(w, now) && now <= later && Explains(e, w.tables, u, later) && RequestsMatch(u.requests, u.consumptions)
    requires e.Deciding? ==> e.intent != ""
    requires e.Tending? ==> e.row.cleanup.attempts <= MAX_ATTEMPTS
    requires e.Moving? && e.app in w.tables.rows ==> !w.tables.rows[e.app].status.Disabling?
    ensures Safe(w.(tables := u), later)
  {
    hide Kernel, Explains, WorkersMatch, ChargesMatch, EndsClean, AttemptsBounded, RequestsMatch, Clean;
    TimePasses(w.tables, now, later);
    EffectKeeps(e, w.tables, u, later);
    EffectRenews(e, w.tables, u, later);
    EffectMovesForward(e, w.tables, u, later);
    RenewsKeepsReadings(w.tables, u, w.workers, w.charges);
    EndsCleanKept(e, w.tables, u, later, w.oauth);
  }

  lemma SafeLater(w: World, now: int, later: int)
    requires Safe(w, now) && now <= later
    ensures Safe(w, later)
  {
    hide Kernel, WorkersMatch, ChargesMatch, EndsClean, AttemptsBounded, RequestsMatch;
    TimePasses(w.tables, now, later);
  }

  // ------------------------------------------------------------------- each step

  lemma PathStepKeeps(w: World, turn: Turn)
    requires Safe(w, turn.now) && turn.now <= turn.later && Enabled(w, turn)
    requires turn.step.Prepares? || turn.step.Decides? || turn.step.Consumes? || turn.step.Activates? || turn.step.IssuesToken? || turn.step.Uninstalls? || turn.step.ActsDirectly?
    ensures Safe(Next(w, turn), turn.later)
  {
    hide TablesInv, WorkersMatch, ChargesMatch, EndsClean, AttemptsBounded, RequestsMatch, Prepare, DecideIntent, Consume, ActivateAccess, IssueAppToken, UninstallAccess, DirectRun, Explains, Unheard;
    var u := Next(w, turn).tables;
    var e := PathEffect(w, turn, u);
    TransactionKeeps(w, e, u, turn.now, turn.later);
  }

  // ------------------------------------------------------------------- cleanup

  lemma PollKeeps(w: World, app: Id, now: int)
    requires Safe(w, now) && app in w.tables.rows && DueCleanup(w.tables.rows[app], now)
    ensures Safe(w.(workers := w.workers + {ReadingOf(app, w.tables.rows[app])}), now)
  {
    hide RowsMatch, GrantsMatch, TokensMatch, RoutesApart, BindingsApart, IntentsMatch, DecisionsMatch, ConsentsMatch, ChargesMatch, EndsClean, AttemptsBounded, RequestsMatch, Ordered;
    assert Notice(w.tables.rows[app].id, Pending) in w.tables.notices;
  }

  lemma RetryKeeps(w: World, id: Id, expected: Option<nat>, now: int)
    requires Safe(w, now) && RetryCleanup(w.tables, id, expected, now).Ok?
    ensures Safe(w.(tables := RetryCleanup(w.tables, id, expected, now).value), now)
  {
    hide Kernel, WorkersMatch, ChargesMatch, EndsClean, AttemptsBounded, RequestsMatch, RetryCleanup, Explains;
    var u := RetryCleanup(w.tables, id, expected, now).value;
    var e := RetryEffect(w.tables, id, expected, now, u);
    TransactionKeeps(w, e, u, now, now);
  }

  lemma FailureKeeps(w: World, c: Cleanup, now: int)
    requires Safe(w, now) && c in w.workers
    ensures Safe(Failed(w, c, now), now)
  {
    hide Kernel, EndsClean, AttemptsBounded, RequestsMatch, RecordFailure, Explains, Known;
    var u := RecordFailure(w.tables, c, now);
    var e := FailureEffect(w.tables, c, now, u);
    assert Reading(w.tables.rows, c);
    TransactionKeeps(w, e, u, now, now);
    if Charged(w.tables, c) {
      ChargeOnce(w, c, u, now);
    }
  }

  lemma ChargeOnce(w: World, c: Cleanup, u: Tables, now: int)
    requires Safe(w, now) && c in w.workers && Charged(w.tables, c) && u == RecordFailure(w.tables, c, now) && ChargesMatch(u, w.charges) && Kernel(u, now)
    requires Known(u, c.id)
    ensures ChargesMatch(u, w.charges + [Charge(c.id, c.revision)])
  {
    hide RowsMatch, GrantsMatch, TokensMatch, RoutesApart, BindingsApart, IntentsMatch, DecisionsMatch, ConsentsMatch, EndsClean, AttemptsBounded, RequestsMatch, NoticesMatch, Known, RevokeTokens, Backoff, WorkersMatch;
    var app := Holder(w.tables.rows, c.id).value;
    assert u.rows[app].cleanup.revision == c.revision + 1 && u.rows[app].id == c.id;
    forall i | 0 <= i < |w.charges|
      ensures w.charges[i] != Charge(c.id, c.revision)
    {
      assert Behind(w.tables.rows, w.charges[i]);
    }
  }

  lemma InvalidateCleans(o: OAuth, id: Id)
    ensures Clean(Invalidate(o, id), id)
    ensures forall other :: Clean(o, other) ==> Clean(Invalidate(o, id), other)
  {
  }

  lemma CleanUpKeeps(w: World, c: Cleanup, reach: Reach, committed: bool, now: int)
    requires Safe(w, now)
    ensures Safe(CleanUpWith(w, c, reach, committed, now), now)
  {
    hide Kernel, WorkersMatch, ChargesMatch, AttemptsBounded, RequestsMatch, CompleteCleanup, Explains, Ended, Invalidate;
    if CleanupKey(c) !in w.tables.receipts && Cleanable(w.tables, c) && !reach.Untouched? {
      InvalidateCleans(w.oauth, c.id);
      if reach.Confirmed? && committed {
        var u := CompleteCleanup(w.tables, c, now).0;
        var e := CompleteEffect(w.tables, c, now, u);
        CompleteKeeps(w.(oauth := Invalidate(w.oauth, c.id)), c, e, u, now);
      }
    }
  }

  lemma CompleteKeeps(w: World, c: Cleanup, e: Effect, u: Tables, now: int)
    requires Safe(w, now) && Clean(w.oauth, c.id) && Explains(e, w.tables, u, now) && RequestsMatch(u.requests, u.consumptions)
    requires !e.Tending? && !e.Deciding? && (e.Moving? ==> Cleanable(w.tables, c) && e.app == c.app)
    ensures Safe(w.(tables := u), now)
  {
    hide Kernel, Explains, WorkersMatch, ChargesMatch, EndsClean, AttemptsBounded, RequestsMatch, Clean;
    EffectKeeps(e, w.tables, u, now);
    EffectRenews(e, w.tables, u, now);
    EffectMovesForward(e, w.tables, u, now);
    RenewsKeepsReadings(w.tables, u, w.workers, w.charges);
    EndsCleanKept(e, w.tables, u, now, w.oauth);
  }

  lemma CleanupStepKeeps(w: World, turn: Turn)
    requires Safe(w, turn.now) && turn.now <= turn.later && Enabled(w, turn)
    requires turn.step.PollsCleanup? || turn.step.CleansUp? || turn.step.RecordsFailure? || turn.step.OperatorRetries? || turn.step.OwnerRetries?
    ensures Safe(Next(w, turn), turn.later)
  {
    hide TablesInv, WorkersMatch, ChargesMatch, EndsClean, AttemptsBounded, RetryCleanup, Failed, CleanUpWith, DueCleanup;
    match turn.step {
      case PollsCleanup(app) => PollKeeps(w, app, turn.now);
      case CleansUp(c, reach, committed) => CleanUpKeeps(w, c, reach, committed, turn.now);
      case RecordsFailure(c) => FailureKeeps(w, c, turn.now);
      case OperatorRetries(id) => if RetryCleanup(w.tables, id, None, turn.now).Ok? { RetryKeeps(w, id, None, turn.now); }
      case OwnerRetries(user, key, id, expected) => if RetryCleanup(w.tables, id, Some(expected), turn.now).Ok? { RetryKeeps(w, id, Some(expected), turn.now); }
    }
    SafeLater(Next(w, turn), turn.now, turn.later);
  }

  // --------------------------------------------------------------------- OAuth

  // An installation in use is not one that ended.
  lemma InUseNotEnded(t: Tables, id: Id, now: int)
    requires Kernel(t, now) && Holder(t.rows, id).Some? && InUse(StatusOf(t.rows, id))
    ensures !Ended(t, id)
  {
    hide UniqueIds, RowsMatch, GrantsMatch, TokensMatch, RoutesApart, BindingsApart, IntentsMatch, DecisionsMatch, ConsentsMatch, Ordered;
  }

  // OAuth work for an installation in use leaves every ended one clean.
  ghost predicate OnlyFor(o: OAuth, p: OAuth, id: Id) {
    && (forall other :: other != id ==> LinkOf(p, other) == LinkOf(o, other))
    && (forall h :: h in p.states && !p.states[h].used && p.states[h].installation != id ==> h in o.states && !o.states[h].used && o.states[h].installation == p.states[h].installation)
  }

  lemma OAuthKeeps(w: World, p: OAuth, id: Id, now: int)
    requires Safe(w, now) && OnlyFor(w.oauth, p, id) && !Ended(w.tables, id)
    ensures Safe(w.(oauth := p), now)
  {
    hide TablesInv, WorkersMatch, ChargesMatch, AttemptsBounded, Ended;
  }

  lemma UseKeeps(w: World, hash: Id, actor: Id, session: string, now: int)
    requires Safe(w, now)
    ensures Safe(w.(oauth := UseState(w.oauth, hash, actor, session, now).0), now)
  {
    hide TablesInv, WorkersMatch, ChargesMatch, AttemptsBounded, Ended;
  }

  lemma BeginIsFor(o: OAuth, id: Id, hash: Id, actor: Id, session: string, key: string, expiresAt: int, now: int)
    ensures OnlyFor(o, Begin(o, id, hash, actor, session, key, expiresAt, now).0, id)
  {
  }

  lemma OAuthStepKeeps(w: World, turn: Turn)
    requires Safe(w, turn.now) && turn.now <= turn.later && Enabled(w, turn)
    requires turn.step.BeginsConnect? || turn.step.UsesState? || turn.step.FinishesConnect? || turn.step.ChecksLink?
    ensures Safe(Next(w, turn), turn.later)
  {
    hide Kernel, WorkersMatch, ChargesMatch, EndsClean, AttemptsBounded, RequestsMatch, Begin, UseState, Ended, HasActiveGrant;
    match turn.step {
      case BeginsConnect(id, m, hash, actor, session, key, expiresAt) =>
        InUseNotEnded(w.tables, id, turn.now);
        BeginIsFor(w.oauth, id, hash, actor, session, key, expiresAt, turn.now);
        OAuthKeeps(w, Next(w, turn).oauth, id, turn.now);
      case UsesState(hash, actor, session) => UseKeeps(w, hash, actor, session, turn.now);
      case FinishesConnect(id, m) =>
        InUseNotEnded(w.tables, id, turn.now);
        OAuthKeeps(w, Next(w, turn).oauth, id, turn.now);
      case ChecksLink(id, usable) =>
        InUseNotEnded(w.tables, id, turn.now);
        OAuthKeeps(w, Next(w, turn).oauth, id, turn.now);
    }
    SafeLater(Next(w, turn), turn.now, turn.later);
  }

  // ------------------------------------------------------------------- every run

  lemma NextKeepsSafe(w: World, turn: Turn)
    requires Safe(w, turn.now) && turn.now <= turn.later
    ensures Safe(Next(w, turn), turn.later)
  {
    hide Safe;
    if !Enabled(w, turn) {
      hide Enabled;
      SafeLater(w, turn.now, turn.later);
    } else {
      match turn.step
      case Prepares(_, _, _, _, _, _) => PathStepKeeps(w, turn);
      case Decides(_, _, _, _, _, _) => PathStepKeeps(w, turn);
      case Consumes(_, _, _, _, _, _, _) => PathStepKeeps(w, turn);
      case Activates(_, _, _, _, _, _) => PathStepKeeps(w, turn);
      case IssuesToken(_, _, _, _, _, _) => PathStepKeeps(w, turn);
      case Uninstalls(_, _, _) => PathStepKeeps(w, turn);
      case ActsDirectly(_, _, _, _, _, _) => PathStepKeeps(w, turn);
      case PollsCleanup(_) => CleanupStepKeeps(w, turn);
      case CleansUp(_, _, _) => CleanupStepKeeps(w, turn);
      case RecordsFailure(_) => CleanupStepKeeps(w, turn);
      case OperatorRetries(_) => CleanupStepKeeps(w, turn);
      case OwnerRetries(_, _, _, _) => CleanupStepKeeps(w, turn);
      case BeginsConnect(_, _, _, _, _, _, _) => OAuthStepKeeps(w, turn);
      case UsesState(_, _, _) => OAuthStepKeeps(w, turn);
      case FinishesConnect(_, _) => OAuthStepKeeps(w, turn);
      case ChecksLink(_, _) => OAuthStepKeeps(w, turn);
    }
  }

  lemma StartIsSafe(now: int)
    ensures Safe(START, now)
  {
  }

  // Clock readings do not go back, and the first one is not before `now`.
  ghost predicate TimedFrom(now: int, turns: seq<Turn>) {
    Timed(turns) && (turns != [] ==> now <= turns[0].now)
  }

  function EndOf(now: int, turns: seq<Turn>): int {
    if turns == [] then now else turns[|turns| - 1].later
  }

  lemma TimedPrefix(now: int, turns: seq<Turn>)
    requires turns != [] && TimedFrom(now, turns)
    ensures TimedFrom(now, turns[..|turns| - 1]) && EndOf(now, turns[..|turns| - 1]) <= turns[|turns| - 1].now <= turns[|turns| - 1].later
  {
    var rest := turns[..|turns| - 1];
    assert forall i :: 0 <= i < |rest| ==> rest[i] == turns[i];
  }

  lemma {:induction false} RunStaysSafe(w: World, now: int, turns: seq<Turn>)
    requires Safe(w, now) && TimedFrom(now, turns)
    ensures Safe(Run(w, turns), EndOf(now, turns))
  {
    hide Safe, Next;
    if turns != [] {
      var rest, last := turns[..|turns| - 1], turns[|turns| - 1];
      TimedPrefix(now, turns);
      RunStaysSafe(w, now, rest);
      SafeLater(Run(w, rest), EndOf(now, rest), last.now);
      NextKeepsSafe(Run(w, rest), last);
    }
  }

  // A state that some timed run reaches by this time.
  ghost predicate Reachable(w: World, now: int) {
    exists start, turns :: TimedFrom(start, turns) && EndOf(start, turns) <= now && Run(START, turns) == w
  }

  // Safety over whole runs, mixing both install paths, OAuth and cleanup workers.
  lemma EveryRunIsSafe(w: World, now: int)
    requires Reachable(w, now)
    ensures Safe(w, now)
  {
    hide Safe, Run, TimedFrom, EndOf;
    var start, turns :| TimedFrom(start, turns) && EndOf(start, turns) <= now && Run(START, turns) == w;
    StartIsSafe(start);
    RunStaysSafe(START, start, turns);
    SafeLater(w, EndOf(start, turns), now);
  }
}
