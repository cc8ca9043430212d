// Handshakes over whole runs: which returns from the app's consent page are accepted, told
// by what happened before and by nothing else.
module Handshakes {
  import opened Base
  import opened LifecycleTables
  import opened LifecycleRules
  import opened Connections
  import opened Lifecycle

  ghost function WorldAt(turns: seq<Turn>, n: nat): World
    requires n <= |turns|
  {
    Run(Lifecycle.START, turns[..n])
  }

  lemma OneMore(turns: seq<Turn>, n: nat)
    requires n < |turns|
    ensures WorldAt(turns, n + 1) == Next(WorldAt(turns, n), turns[n])
  {
    hide Next;
    assert turns[..n + 1][..n] == turns[..n];
  }

  // A request of this session for this installation is on file.
  ghost predicate Requested(o: OAuth, id: Id, session: string, key: string) {
    exists h :: h in o.states && o.states[h].installation == id && o.states[h].session == session && o.states[h].key == key
  }

  // The handshake was begun: at the gate, with a new state, for a new request.
  ghost predicate Begun(turns: seq<Turn>, i: nat, hash: Id) {
    && i < |turns| && turns[i].step.BeginsConnect? && turns[i].step.hash == hash && Enabled(WorldAt(turns, i), turns[i])
    && hash !in WorldAt(turns, i).oauth.states && !Requested(WorldAt(turns, i).oauth, turns[i].step.id, turns[i].step.session, turns[i].step.key)
    && turns[i].now < turns[i].step.expiresAt
  }

  // The actor and session that began it came back in time.
  predicate Returned(turns: seq<Turn>, i: nat, k: nat)
    requires i < k < |turns| && turns[i].step.BeginsConnect?
  {
    turns[k].step == UsesState(turns[i].step.hash, turns[i].step.actor, turns[i].step.session) && turns[k].now < turns[i].step.expiresAt
  }

  // A cleanup of the installation got at least as far as cutting its access.
  ghost predicate Spent(w: World, turn: Turn, id: Id) {
    && turn.step.CleansUp? && Enabled(w, turn) && turn.step.c.id == id && (turn.step.reach.Invalidated? || turn.step.reach.Confirmed?)
    && CleanupKey(turn.step.c) !in w.tables.receipts && Cleanable(w.tables, turn.step.c)
  }

  ghost predicate Untouched(turns: seq<Turn>, i: nat, n: nat)
    requires i < n <= |turns| && turns[i].step.BeginsConnect?
  {
    forall k :: i < k < n ==> !Returned(turns, i, k) && !Spent(WorldAt(turns, k), turns[k], turns[i].step.id)
  }

  lemma TurnOnHandshake(w: World, turn: Turn, hash: Id, h: Handshake)
    requires hash in w.oauth.states && h == w.oauth.states[hash]
    ensures hash in Next(w, turn).oauth.states
    ensures Next(w, turn).oauth.states[hash] ==
            if (turn.step == UsesState(hash, h.actor, h.session) && turn.now < h.expiresAt) || Spent(w, turn, h.installation) then h.(used := true) else h
  {
    hide Prepare, DecideIntent, Consume, ActivateAccess, IssueAppToken, UninstallAccess, DirectRun, CompleteCleanup, RecordFailure, RetryCleanup, DueCleanup, Unheard, Gate, CleanupKey, Cleanable, Charged;
  }

  lemma JustBegun(w: World, turn: Turn)
    requires turn.step.BeginsConnect? && Enabled(w, turn) && turn.step.hash !in w.oauth.states && !Requested(w.oauth, turn.step.id, turn.step.session, turn.step.key) && turn.now < turn.step.expiresAt
    ensures turn.step.hash in Next(w, turn).oauth.states
    ensures Next(w, turn).oauth.states[turn.step.hash] == Handshake(turn.step.id, turn.step.actor, turn.step.session, turn.step.key, turn.step.expiresAt, false)
  {
    hide Prepare, DecideIntent, Consume, ActivateAccess, IssueAppToken, UninstallAccess, DirectRun, CompleteCleanup, RecordFailure, RetryCleanup, DueCleanup, Unheard, Gate, CleanupKey, Cleanable, Charged;
    var o := w.oauth.(states := w.oauth.states[turn.step.hash := Handshake(turn.step.id, turn.step.actor, turn.step.session, turn.step.key, turn.step.expiresAt, false)]);
    assert Matching(o.states[turn.step.hash], turn.step.id, turn.step.actor, turn.step.session, turn.step.key, turn.now);
  }

  lemma NewWasBegun(w: World, turn: Turn, hash: Id)
    requires hash in Next(w, turn).oauth.states && hash !in w.oauth.states
    ensures turn.step.BeginsConnect? && turn.step.hash == hash && Enabled(w, turn) && !Requested(w.oauth, turn.step.id, turn.step.session, turn.step.key) && turn.now < turn.step.expiresAt
  {
    hide Prepare, DecideIntent, Consume, ActivateAccess, IssueAppToken, UninstallAccess, DirectRun, CompleteCleanup, RecordFailure, RetryCleanup, DueCleanup, Unheard, Gate, CleanupKey, Cleanable, Charged;
  }

  // What the table says of a handshake is what happened to it.
  lemma {:induction false} HandshakeTellsItsStory(turns: seq<Turn>, n: nat, i: nat, hash: Id)
    requires i < n <= |turns| && Begun(turns, i, hash)
    ensures hash in WorldAt(turns, n).oauth.states
    ensures var a := turns[i].step; WorldAt(turns, n).oauth.states[hash] == Handshake(a.id, a.actor, a.session, a.key, a.expiresAt, !Untouched(turns, i, n))
    decreases n
  {
    hide Next, Run, Enabled, Spent, Requested;
    OneMore(turns, n - 1);
    if n == i + 1 {
      JustBegun(WorldAt(turns, i), turns[i]);
    } else {
      HandshakeTellsItsStory(turns, n - 1, i, hash);
      TurnOnHandshake(WorldAt(turns, n - 1), turns[n - 1], hash, WorldAt(turns, n - 1).oauth.states[hash]);
    }
  }

  lemma {:induction false} KnownWasBegun(turns: seq<Turn>, n: nat, hash: Id)
    requires n <= |turns| && hash in WorldAt(turns, n).oauth.states
    ensures exists i: nat :: i < n && Begun(turns, i, hash)
    decreases n
  {
    hide Next, Run, Enabled, Requested;
    if n == 0 {
      NothingYet(turns);
    } else {
      OneMore(turns, n - 1);
      if hash in WorldAt(turns, n - 1).oauth.states {
        KnownWasBegun(turns, n - 1, hash);
      } else {
        NewWasBegun(WorldAt(turns, n - 1), turns[n - 1], hash);
        assert Begun(turns, n - 1, hash);
      }
    }
  }

  lemma NothingYet(turns: seq<Turn>)
    ensures WorldAt(turns, 0).oauth.states == map[]
  {
  }

  // A return is accepted, for the installation it was begun for, exactly when this actor
  // and session began it, it has not expired, they have not been back before, and no
  // cleanup of the installation has spent it.
  lemma ReturnsExactlyWhen(turns: seq<Turn>, hash: Id, actor: Id, session: string, now: int)
    ensures var answer := UseState(Run(Lifecycle.START, turns).oauth, hash, actor, session, now).1;
            && (answer.Ok? <==> exists i: nat :: Good(turns, i, hash, actor, session, now))
            && (forall i: nat :: Good(turns, i, hash, actor, session, now) ==> answer == Ok(turns[i].step.id))
            && (answer.Err? ==> answer.fault == Invalid)
  {
    hide Run, Untouched;
    assert turns[..|turns|] == turns;
    var o := WorldAt(turns, |turns|).oauth;
    forall i: nat | Begun(turns, i, hash)
      ensures hash in o.states && o.states[hash].installation == turns[i].step.id
      ensures UseState(o, hash, actor, session, now).1.Ok? <==> Good(turns, i, hash, actor, session, now)
    {
      HandshakeTellsItsStory(turns, |turns|, i, hash);
    }
    if hash in o.states {
      KnownWasBegun(turns, |turns|, hash);
    }
  }

  ghost predicate Good(turns: seq<Turn>, i: nat, hash: Id, actor: Id, session: string, now: int) {
    Begun(turns, i, hash) && turns[i].step.actor == actor && turns[i].step.session == session && now < turns[i].step.expiresAt && Untouched(turns, i, |turns|)
  }

  // Beginning succeeds exactly with a new request that has not expired, or with the open
  // handshake of this very actor, session and request.
  lemma BeginsExactlyWhen(o: OAuth, id: Id, hash: Id, actor: Id, session: string, key: string, expiresAt: int, now: int)
    ensures var (p, answer) := Begin(o, id, hash, actor, session, key, expiresAt, now);
            && (answer.Ok? <==> (hash !in o.states && !Requested(o, id, session, key) && now < expiresAt) || exists h :: h in o.states && IsOpen(o.states[h], id, actor, session, key, now))
            && (answer.Ok? ==> answer.value in p.states && IsOpen(p.states[answer.value], id, actor, session, key, now))
            && (answer.Err? ==> answer.fault == Conflict && p == o)
            && p.links == o.links
  {
    var begun := Handshake(id, actor, session, key, expiresAt, false);
    if hash !in o.states && !Requested(o, id, session, key) && now < expiresAt {
      var p := o.(states := o.states[hash := begun]);
      assert Matching(p.states[hash], id, actor, session, key, now);
    } else if h :| h in o.states && IsOpen(o.states[h], id, actor, session, key, now) {
      assert Matching(o.states[h], id, actor, session, key, now);
    }
  }

  predicate IsOpen(h: Handshake, id: Id, actor: Id, session: string, key: string, now: int) {
    h == Handshake(id, actor, session, key, h.expiresAt, false) && now < h.expiresAt
  }

  // Cutting off an installation cuts its own link and nobody else's, and leaves it no open
  // handshake.
  lemma CutsOnlyItsOwn(o: OAuth, id: Id)
    ensures var p := Invalidate(o, id);
            && LinkOf(p, id).Cut? && (forall other :: other != id ==> LinkOf(p, other) == LinkOf(o, other))
            && p.states.Keys == o.states.Keys
            && (forall h :: h in o.states ==> p.states[h] == if o.states[h].installation == id then o.states[h].(used := true) else o.states[h])
  {
  }
}
