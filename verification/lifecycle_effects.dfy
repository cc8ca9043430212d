// Every turn of the lifecycle has one of the known effects on the tables, and the
// step tells which.
module LifecycleEffects {
  import opened Base
  import opened LifecycleTables
  import opened LifecycleRules
  import opened LifecycleSteps
  import opened Connections
  import opened Lifecycle

  // How a row may move in a step, from what it was to what it becomes.
  ghost predicate MovedBy(t: Tables, step: Step, app: Id, row: Row) {
    app in t.rows &&
    match step
    case Activates(_, _, id, _, _, ready) =>
      && InUse(t.rows[app].status) && row.status.Active? && t.rows[app].id == id && id in t.consumptions
      && (Depends(t.consumptions[id].release.profile) ==> ready.Ok?)
    case Uninstalls(_, _, _) =>
      InUse(t.rows[app].status) && !InUse(row.status) && (row.status.Uninstalled? ==> t.rows[app].id in t.consumptions && !t.consumptions[t.rows[app].id].release.profile.LocalRemote?)
    case ActsDirectly(_, _, action, answer, ready, _) =>
      && InUse(t.rows[app].status) && t.rows[app].intent == ""
      && (row.status.Active? ==> action == Start(app) && answer.Ok? && (answer.value.profile.LocalRemote? ==> ready.Ok?))
      && (row.status.Uninstalled? ==> action == Remove(app) && answer.Ok? && !answer.value.profile.LocalRemote?)
    case CleansUp(c, reach, committed) => Cleanable(t, c) && app == c.app && reach.Confirmed? && committed
    case _ => false
  }

  // What a cleanup column write may do.
  ghost predicate TendedBy(t: Tables, step: Step, app: Id, row: Row) {
    match step
    case RecordsFailure(c) => app in t.rows && t.rows[app].id == c.id && t.rows[app].cleanup.revision == c.revision && row.cleanup.attempts == t.rows[app].cleanup.attempts + 1
    case _ => row.cleanup.attempts == 0
  }

  ghost predicate Possible(t: Tables, step: Step, e: Effect) {
    match e
    case Moving(app, row) => MovedBy(t, step, app, row)
    case Tending(app, row) => TendedBy(t, step, app, row)
    case Deciding(intent, next, _, _) => intent != "" && (intent !in t.intents ==> step.Prepares? && step.release == Ok(next.release))
    case Installing(app, row) => row.intent == "" ==> step.ActsDirectly? && step.action.app == app && step.answer.Ok?
    case _ => true
  }

  lemma ExplainsLater(e: Effect, t: Tables, u: Tables, now: int, later: int)
    requires Explains(e, t, u, now) && now <= later
    ensures Explains(e, t, u, later)
  {
    hide Installs, Moves, Tends, Issues;
  }

  lemma PathEffect(w: World, turn: Turn, u: Tables) returns (e: Effect)
    requires TablesInv(w.tables, turn.now) && "" !in w.tables.intents && turn.now <= turn.later && Enabled(w, turn) && u == Next(w, turn).tables
    requires turn.step.Prepares? || turn.step.Decides? || turn.step.Consumes? || turn.step.Activates? || turn.step.IssuesToken? || turn.step.Uninstalls? || turn.step.ActsDirectly?
    ensures Explains(e, w.tables, u, turn.later) && RequestsMatch(u.requests, u.consumptions) && Possible(w.tables, turn.step, e)
  {
    hide Kernel, RequestsMatch, Prepare, DecideIntent, Consume, ActivateAccess, IssueAppToken, UninstallAccess, DirectRun, Explains, Unheard;
    var t := w.tables;
    e := Nothing;
    match turn.step
    case Prepares(owner, key, app, version, release, newId) =>
      e := PrepareEffect(t, owner, key, app, version, release, newId, turn.now, turn.later, u);
    case Decides(owner, key, id, digest, consent, current) =>
      e := DecideEffect(t, owner, key, id, digest, consent, current, turn.now, turn.later, u);
    case Consumes(owner, key, id, digest, current, special, newId) =>
      if id == "" {
        UnknownIntent(t, owner, key, id, digest, current, special, newId, turn.now, turn.later);
        NothingExplains(t, u, turn.later);
      } else {
        e := ConsumeEffect(t, owner, key, id, digest, current, special, newId, turn.now, turn.later, u);
      }
    case Activates(owner, key, id, current, special, ready) =>
      e := ActivateEffect(t, owner, key, id, current, special, ready, turn.later, turn.now, u);
    case IssuesToken(owner, key, id, current, special, tokenId) =>
      e := TokenEffect(t, owner, key, id, current, special, tokenId, turn.later, turn.now, u);
    case Uninstalls(owner, key, id) =>
      e := UninstallEffect(t, owner, key, id, turn.later, turn.now, u);
    case ActsDirectly(user, key, action, m, ready, newId) =>
      e := DirectEffect(t, user, key, action, m, ready, newId, turn.now, u);
      ExplainsLater(e, t, u, turn.now, turn.later);
  }

  lemma CleanupEffect(w: World, turn: Turn, u: Tables) returns (e: Effect)
    requires TablesInv(w.tables, turn.now) && turn.now <= turn.later && Enabled(w, turn) && u == Next(w, turn).tables
    requires turn.step.CleansUp? || turn.step.RecordsFailure? || turn.step.OperatorRetries? || turn.step.OwnerRetries?
    ensures Explains(e, w.tables, u, turn.later) && RequestsMatch(u.requests, u.consumptions) && Possible(w.tables, turn.step, e)
  {
    hide Kernel, RequestsMatch, CompleteCleanup, RecordFailure, RetryCleanup, Explains, Invalidate, CleanupKey;
    var t := w.tables;
    e := Nothing;
    NothingExplains(t, t, turn.now);
    match turn.step {
      case CleansUp(c, reach, committed) =>
        if u != t {
          e := CompleteEffect(t, c, turn.now, u);
        }
      case RecordsFailure(c) =>
        e := FailureEffect(t, c, turn.now, u);
      case OperatorRetries(id) =>
        if u != t {
          e := RetryEffect(t, id, None, turn.now, u);
        }
      case OwnerRetries(user, key, id, expected) =>
        if u != t {
          e := RetryEffect(t, id, Some(expected), turn.now, u);
        }
    }
    ExplainsLater(e, t, u, turn.now, turn.later);
  }

  lemma StepEffect(w: World, turn: Turn, u: Tables) returns (e: Effect)
    requires TablesInv(w.tables, turn.now) && "" !in w.tables.intents && turn.now <= turn.later && u == Next(w, turn).tables
    ensures Explains(e, w.tables, u, turn.later) && RequestsMatch(u.requests, u.consumptions) && Possible(w.tables, turn.step, e)
  {
    hide Kernel, RequestsMatch, Explains, Possible, Prepare, DecideIntent, Consume, ActivateAccess, IssueAppToken, UninstallAccess, DirectRun, CleanUpWith, Failed, RetryCleanup, Begin, UseState, DueCleanup, Gate, Unheard;
    e := Nothing;
    if Enabled(w, turn) {
      match turn.step
      case PollsCleanup(_) => StandsStill(w.tables, turn.step, turn.later);
      case BeginsConnect(_, _, _, _, _, _, _) => StandsStill(w.tables, turn.step, turn.later);
      case UsesState(_, _, _) => StandsStill(w.tables, turn.step, turn.later);
      case FinishesConnect(_, _) => StandsStill(w.tables, turn.step, turn.later);
      case ChecksLink(_, _) => StandsStill(w.tables, turn.step, turn.later);
      case CleansUp(_, _, _) => e := CleanupEffect(w, turn, u);
      case RecordsFailure(_) => e := CleanupEffect(w, turn, u);
      case OperatorRetries(_) => e := CleanupEffect(w, turn, u);
      case OwnerRetries(_, _, _, _) => e := CleanupEffect(w, turn, u);
      case _ => e := PathEffect(w, turn, u);
    } else {
      StandsStill(w.tables, turn.step, turn.later);
    }
  }

  lemma StandsStill(t: Tables, step: Step, now: int)
    ensures Explains(Nothing, t, t, now) && Possible(t, step, Nothing)
  {
  }
}
