// Repeated lifecycle requests leave no trace and answer what was recorded; a
// handshake works once.
module LifecycleReplays {
  import opened Base
  import opened Consent
  import opened LifecycleTables
  import opened LifecycleRules
  import opened LifecycleMemory
  import LifecycleEffects
  import opened Connections
  import opened Lifecycle
  import opened LifecycleSafety

  // The request's key is already recorded.
  predicate Redundant(w: World, step: Step) {
    match step
    case Prepares(owner, key, _, _, _, _) => OwnerKey(owner, key) in w.tables.intentRequests
    case Decides(owner, key, _, _, _, _) => OwnerKey(owner, key) in w.tables.intentRequests
    case Consumes(owner, key, _, _, _, _, _) => OwnerKey(owner, key) in w.tables.requests
    case Activates(owner, key, _, _, _, _) => OwnerKey(owner, key) in w.tables.requests
    case IssuesToken(owner, key, _, _, _, _) => OwnerKey(owner, key) in w.tables.requests
    case Uninstalls(owner, key, _) => OwnerKey(owner, key) in w.tables.requests
    case ActsDirectly(user, key, _, _, _, _) => DirectKey(user, key) in w.tables.receipts
    case CleansUp(c, _, _) => CleanupKey(c) in w.tables.receipts
    case OwnerRetries(user, key, _, _) => DirectKey(user, key) in w.recoveries
    case _ => false
  }

  // A recorded key with the same body or another one: nothing changes.
  lemma RedundantStutters(w: World, turn: Turn)
    requires Redundant(w, turn.step)
    ensures Next(w, turn) == w
  {
    hide ReadAccess, Eligible, Transition, Change, Bind, Activated, Retired, RetryCleanup, Unheard;
  }

  // The run without its repetitions.
  ghost function Compact(w: World, turns: seq<Turn>): seq<Turn> {
    if turns == [] then []
    else
      var rest, last := turns[..|turns| - 1], turns[|turns| - 1];
      if Redundant(Run(w, rest), last.step) then Compact(w, rest) else Compact(w, rest) + [last]
  }

  // Leaving out every request whose key was recorded by then leaves the same tables
  // and connections, and nothing redundant is left.
  lemma {:induction false} RepetitionsLeaveNoTrace(w: World, turns: seq<Turn>)
    ensures Run(w, Compact(w, turns)) == Run(w, turns)
    ensures forall i :: 0 <= i < |Compact(w, turns)| ==> !Redundant(Run(w, Compact(w, turns)[..i]), Compact(w, turns)[i].step)
  {
    hide Next, Redundant;
    if turns != [] {
      var rest, last := turns[..|turns| - 1], turns[|turns| - 1];
      RepetitionsLeaveNoTrace(w, rest);
      var c := Compact(w, rest);
      if Redundant(Run(w, rest), last.step) {
        RedundantStutters(Run(w, rest), last);
      } else {
        var d := c + [last];
        assert d[..|d| - 1] == c;
        forall i | 0 <= i < |d|
          ensures !Redundant(Run(w, d[..i]), d[i].step)
        {
          assert i < |c| ==> d[..i] == c[..i];
        }
      }
    }
  }

  // --------------------------------------------------------------- token requests

  lemma PathKeepsRequests(w: World, turn: Turn)
    requires Enabled(w, turn)
    requires turn.step.Prepares? || turn.step.Decides? || turn.step.Consumes? || turn.step.Activates? || turn.step.IssuesToken? || turn.step.Uninstalls? || turn.step.ActsDirectly?
    ensures RequestsKept(w.tables, Next(w, turn).tables)
  {
    hide RequestsKept, Prepare, DecideIntent, Consume, ActivateAccess, IssueAppToken, UninstallAccess, DirectRun, Unheard;
    var t, later := w.tables, turn.later;
    match turn.step
    case Prepares(owner, key, app, version, release, newId) =>
      PrepareRemembers(t, owner, key, app, version, release, newId, turn.now, later);
      SameRequests(t, Next(w, turn).tables);
    case Decides(owner, key, id, digest, consent, current) =>
      DecideRemembers(t, owner, key, id, digest, consent, current, turn.now, later);
      SameRequests(t, Next(w, turn).tables);
    case Consumes(owner, key, id, digest, current, special, newId) => ConsumeRemembers(t, owner, key, id, digest, current, special, newId, turn.now, later);
    case Activates(owner, key, id, current, special, ready) => ActivateRemembers(t, owner, key, id, current, special, ready, later);
    case IssuesToken(owner, key, id, current, special, tokenId) => TokenRemembers(t, owner, key, id, current, special, tokenId, later);
    case Uninstalls(owner, key, id) => UninstallRemembers(t, owner, key, id, later);
    case ActsDirectly(user, key, action, m, ready, newId) =>
      DirectRemembers(t, user, key, action, m, ready, newId, turn.now);
      SameRequests(t, Next(w, turn).tables);
  }

  lemma SameRequests(t: Tables, u: Tables)
    requires u.requests == t.requests
    ensures RequestsKept(t, u)
  {
  }

  lemma OtherStepsKeepRequests(w: World, turn: Turn)
    requires Enabled(w, turn)
    requires !(turn.step.Prepares? || turn.step.Decides? || turn.step.Consumes? || turn.step.Activates? || turn.step.IssuesToken? || turn.step.Uninstalls? || turn.step.ActsDirectly?)
    ensures Next(w, turn).tables.requests == w.tables.requests
  {
    hide Prepare, DecideIntent, Consume, ActivateAccess, IssueAppToken, UninstallAccess, DirectRun, CompleteCleanup, RecordFailure, RetryCleanup, Begin, UseState, Invalidate, Gate, DueCleanup, CleanupKey, Cleanable;
    if turn.step.CleansUp? || turn.step.RecordsFailure? {
      CleanupRemembers(w.tables, turn.step.c, turn.now);
    } else if turn.step.OperatorRetries? && RetryCleanup(w.tables, turn.step.id, None, turn.now).Ok? {
      RetryRemembers(w.tables, turn.step.id, None, turn.now);
    } else if turn.step.OwnerRetries? && RetryCleanup(w.tables, turn.step.id, Some(turn.step.expected), turn.now).Ok? {
      RetryRemembers(w.tables, turn.step.id, Some(turn.step.expected), turn.now);
    }
  }

  lemma NextRemembers(w: World, turn: Turn)
    requires Safe(w, turn.now) && turn.now <= turn.later
    ensures TokensKept(w.tables, Next(w, turn).tables) && RequestsKept(w.tables, Next(w, turn).tables)
  {
    hide TokensKept, RequestsKept, Next, LifecycleEffects.Possible, Explains, TablesInv, WorkersMatch, ChargesMatch, EndsClean, AttemptsBounded;
    var u := Next(w, turn).tables;
    var e := LifecycleEffects.StepEffect(w, turn, u);
    EffectKeepsTokens(e, w.tables, u, turn.later);
    if !Enabled(w, turn) {
      DisabledIsStill(w, turn);
      SameRequests(w.tables, u);
    } else if turn.step.Prepares? || turn.step.Decides? || turn.step.Consumes? || turn.step.Activates? || turn.step.IssuesToken? || turn.step.Uninstalls? || turn.step.ActsDirectly? {
      PathKeepsRequests(w, turn);
    } else {
      OtherStepsKeepRequests(w, turn);
      SameRequests(w.tables, u);
    }
  }

  lemma DisabledIsStill(w: World, turn: Turn)
    requires !Enabled(w, turn)
    ensures Next(w, turn) == w
  {
    hide Enabled;
  }

  lemma {:induction false} RunRemembers(w: World, now: int, more: seq<Turn>)
    requires Safe(w, now) && TimedFrom(now, more)
    ensures TokensKept(w.tables, Run(w, more).tables) && RequestsKept(w.tables, Run(w, more).tables)
  {
    hide Safe, Next, TimedFrom, EndOf;
    if more != [] {
      var rest, last := more[..|more| - 1], more[|more| - 1];
      TimedPrefix(now, more);
      RunRemembers(w, now, rest);
      RunStaysSafe(w, now, rest);
      SafeLater(Run(w, rest), EndOf(now, rest), last.now);
      NextRemembers(Run(w, rest), last);
    }
  }

  // Over any later run a repeated token request names the token it was answered with
  // the first time, with its expiry, and says truly whether it still counts; with
  // another body it is a conflict.
  lemma RetryNamesTheSameToken(w: World, now: int, owner: Owner, key: string, id: Id, current: Result<Release>, special: Result<()>, token: Id, u: Tables, more: seq<Turn>, when: int)
    requires Reachable(w, now) && OwnerKey(owner, key) !in w.tables.requests
    requires u == IssueAppToken(w.tables, owner, key, id, current, special, token, now).0 && IssueAppToken(w.tables, owner, key, id, current, special, token, now).1.Ok?
    requires TimedFrom(now, more)
    ensures var t := Run(w.(tables := u), more).tables;
            && token in t.tokens && OwnerKey(owner, key) in t.requests
            && RecordedToken(t, OwnerKey(owner, key), when) == Ok(Some(TokenView(token, now + TOKEN_TTL, t.tokens[token].revoked || now + TOKEN_TTL <= when)))
            && (forall body :: body != ActionBody(IssueToken, id) ==> Replayed(t, owner, OwnerKey(owner, key), body) == Err(Conflict))
  {
    hide Reachable, Safe, TimedFrom, Run, ReadAccess, Usable, Tokenless, Eligible, RevokeTokens;
    var turn := Turn(IssuesToken(owner, key, id, current, special, token), now, now);
    EveryRunIsSafe(w, now);
    TokenTurn(w, turn, u);
    NextKeepsSafe(w, turn);
    RunRemembers(w.(tables := u), now, more);
  }

  lemma TokenTurn(w: World, turn: Turn, u: Tables)
    requires turn.step.IssuesToken? && u == IssueAppToken(w.tables, turn.step.owner, turn.step.key, turn.step.id, turn.step.current, turn.step.special, turn.step.tokenId, turn.later).0
    ensures Next(w, turn) == w.(tables := u)
  {
    hide IssueAppToken;
  }

  // ------------------------------------------------------------------ handshakes

  // Handshakes keep their installation, actor and session, and once used stay used.
  ghost predicate SpentStay(a: map<Id, Handshake>, b: map<Id, Handshake>) {
    forall h :: h in a ==>
      && h in b && b[h].installation == a[h].installation && b[h].actor == a[h].actor && b[h].session == a[h].session
      && (a[h].used ==> b[h].used)
  }

  lemma BeginKeepsSpent(o: OAuth, id: Id, hash: Id, actor: Id, session: string, key: string, expiresAt: int, now: int)
    ensures SpentStay(o.states, Begin(o, id, hash, actor, session, key, expiresAt, now).0.states)
  {
  }

  lemma CleanUpKeepsSpent(w: World, c: Cleanup, reach: Reach, committed: bool, now: int)
    ensures SpentStay(w.oauth.states, CleanUpWith(w, c, reach, committed, now).oauth.states)
  {
    hide CompleteCleanup, Cleanable;
  }

  lemma NextKeepsSpent(w: World, turn: Turn)
    ensures SpentStay(w.oauth.states, Next(w, turn).oauth.states)
  {
    hide Enabled, Prepare, DecideIntent, Consume, ActivateAccess, IssueAppToken, UninstallAccess, DirectRun, CompleteCleanup, RecordFailure, RetryCleanup, Begin, Gate, CleanUpWith, Charged;
    if Enabled(w, turn) && turn.step.CleansUp? {
      CleanUpKeepsSpent(w, turn.step.c, turn.step.reach, turn.step.committed, turn.now);
    } else if Enabled(w, turn) && turn.step.BeginsConnect? {
      BeginKeepsSpent(w.oauth, turn.step.id, turn.step.hash, turn.step.actor, turn.step.session, turn.step.key, turn.step.expiresAt, turn.now);
    }
  }

  lemma {:induction false} RunKeepsSpent(w: World, turns: seq<Turn>)
    ensures SpentStay(w.oauth.states, Run(w, turns).oauth.states)
  {
    hide Next;
    if turns != [] {
      RunKeepsSpent(w, turns[..|turns| - 1]);
      NextKeepsSpent(Run(w, turns[..|turns| - 1]), turns[|turns| - 1]);
    }
  }

  // A handshake state lets one callback through, the one of the actor and session
  // that began it, and never another.
  lemma HandshakeWorksOnce(w: World, turns: seq<Turn>, hash: Id, actor: Id, session: string, now: int, other: Id, otherSession: string, later: int)
    requires UseState(w.oauth, hash, actor, session, now).1.Ok?
    ensures w.oauth.states[hash].actor == actor && w.oauth.states[hash].session == session && now < w.oauth.states[hash].expiresAt
    ensures var v := w.(oauth := UseState(w.oauth, hash, actor, session, now).0);
            UseState(Run(v, turns).oauth, hash, other, otherSession, later) == (Run(v, turns).oauth, Err(Invalid))
  {
    hide Run;
    RunKeepsSpent(w.(oauth := UseState(w.oauth, hash, actor, session, now).0), turns);
  }
}
