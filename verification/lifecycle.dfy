// The install lifecycle of one tenant as a state machine: the consent path, the
// direct path over the same rows, OAuth and the cleanup workers.
module Lifecycle {
  import opened Base
  import opened Consent
  import opened LifecycleTables
  import opened LifecycleRules
  import opened Connections

  // A failed revocation that was charged to a cleanup revision.
  datatype Charge = Charge(id: Id, revision: nat)

  datatype Recover = Recover(id: Id, expected: nat)

  // `workers` holds every row reading a cleanup worker ever made: any of them may
  // still be in some worker's hands.
  datatype World = World(
    tables: Tables, oauth: OAuth, workers: set<Cleanup>, charges: seq<Charge>, recoveries: map<DirectKey, Recover>)

  const START := World(EMPTY, OAuth(map[], map[]), {}, [], map[])

  // How far a revocation attempt got before its worker's own transaction: nothing
  // committed, only the connection cut, all local access cut but the remote side
  // unreachable, or confirmed.
  datatype Reach = Untouched | Marked | Invalidated | Confirmed

  datatype Step =
    | Prepares(owner: Owner, key: string, app: Id, version: string, release: Result<Release>, newId: Id)
    | Decides(owner: Owner, key: string, id: Id, digest: Digest, consent: bool, current: Result<Release>)
    | Consumes(owner: Owner, key: string, id: Id, digest: Digest, current: Result<Release>, special: Result<()>, newId: Id)
    | Activates(owner: Owner, key: string, id: Id, current: Result<Release>, special: Result<()>, ready: Result<()>)
    | IssuesToken(owner: Owner, key: string, id: Id, current: Result<Release>, special: Result<()>, tokenId: Id)
    | Uninstalls(owner: Owner, key: string, id: Id)
    | ActsDirectly(user: Id, key: string, action: DirectAction, answer: Result<Manifest>, ready: Result<()>, newId: Id)
    | PollsCleanup(app: Id)
    | CleansUp(c: Cleanup, reach: Reach, committed: bool)
    | RecordsFailure(c: Cleanup)
    | OperatorRetries(id: Id)
    | OwnerRetries(user: Id, key: string, id: Id, expected: nat)
    | BeginsConnect(id: Id, manifest: Manifest, hash: Id, actor: Id, session: string, key: string, expiresAt: int)
    | UsesState(hash: Id, actor: Id, session: string)
    | FinishesConnect(id: Id, manifest: Manifest)
    // A call, refresh or readiness check under the gate found the link usable or lost.
    | ChecksLink(id: Id, usable: bool)

  // `now` and `later` are the two clock readings of a transaction.
  datatype Turn = Turn(step: Step, now: int, later: int)

  ghost predicate Gate(t: Tables, id: Id, m: Manifest) {
    var app := Holder(t.rows, id);
    app.Some? && m.app == app.value && MayConnect(t, t.rows[app.value], m)
  }

  ghost predicate Enabled(w: World, turn: Turn) {
    match turn.step
    case Prepares(_, _, app, version, release, newId) => newId != "" && (release.Ok? ==> release.value.app == app && release.value.version == version)
    case Consumes(_, _, _, _, _, _, newId) => Unheard(w.tables, newId)
    case ActsDirectly(_, _, action, m, _, newId) => Unheard(w.tables, newId) && (m.Ok? ==> m.value.app == action.app)
    case PollsCleanup(app) => app in w.tables.rows && DueCleanup(w.tables.rows[app], turn.now)
    case CleansUp(c, _, _) => c in w.workers
    case RecordsFailure(c) => c in w.workers
    case BeginsConnect(id, m, _, _, _, _, _) => Gate(w.tables, id, m)
    case FinishesConnect(id, m) => Gate(w.tables, id, m) && exists h :: h in w.oauth.states && w.oauth.states[h].installation == id && w.oauth.states[h].used
    case ChecksLink(id, _) => Holder(w.tables.rows, id).Some? && InUse(StatusOf(w.tables.rows, id)) && LinkOf(w.oauth, id).Connected?
    case _ => true
  }

  ghost function Next(w: World, turn: Turn): World {
    if !Enabled(w, turn) then w
    else
      var now, later := turn.now, turn.later;
      match turn.step
      case Prepares(owner, key, app, version, release, newId) => w.(tables := Prepare(w.tables, owner, key, app, version, release, newId, now, later).0)
      case Decides(owner, key, id, digest, consent, current) => w.(tables := DecideIntent(w.tables, owner, key, id, digest, consent, current, now, later).0)
      case Consumes(owner, key, id, digest, current, special, newId) => w.(tables := Consume(w.tables, owner, key, id, digest, current, special, newId, now, later).0)
      case Activates(owner, key, id, current, special, ready) => w.(tables := ActivateAccess(w.tables, owner, key, id, current, special, ready, later).0)
      case IssuesToken(owner, key, id, current, special, tokenId) => w.(tables := IssueAppToken(w.tables, owner, key, id, current, special, tokenId, later).0)
      case Uninstalls(owner, key, id) => w.(tables := UninstallAccess(w.tables, owner, key, id, later).0)
      case ActsDirectly(user, key, action, m, ready, newId) => w.(tables := DirectRun(w.tables, user, key, action, m, ready, newId, now).0)
      case PollsCleanup(app) =>
        w.(workers := w.workers + {ReadingOf(app, w.tables.rows[app])})
      case CleansUp(c, reach, committed) => CleanUpWith(w, c, reach, committed, now)
      case RecordsFailure(c) => Failed(w, c, now)
      case OperatorRetries(id) =>
        var r := RetryCleanup(w.tables, id, None, now);
        if r.Ok? then w.(tables := r.value) else w
      case OwnerRetries(user, key, id, expected) =>
        var at := DirectKey(user, key);
        var r := RetryCleanup(w.tables, id, Some(expected), now);
        if at !in w.recoveries && r.Ok? then w.(tables := r.value, recoveries := w.recoveries[at := Recover(id, expected)]) else w
      case BeginsConnect(id, _, hash, actor, session, key, expiresAt) => w.(oauth := Begin(w.oauth, id, hash, actor, session, key, expiresAt, now).0)
      case UsesState(hash, actor, session) => w.(oauth := UseState(w.oauth, hash, actor, session, now).0)
      case FinishesConnect(id, _) => w.(oauth := Save(w.oauth, id, Connected))
      case ChecksLink(id, usable) => w.(oauth := Save(w.oauth, id, if usable then Connected else NeedsConnection))
  }

  // Revocation works outside the worker's transaction: what it has committed stays
  // even when the worker fails afterwards.
  function CleanUpWith(w: World, c: Cleanup, reach: Reach, committed: bool, now: int): World {
    if CleanupKey(c) in w.tables.receipts || !Cleanable(w.tables, c) then w
    else
      match reach
      case Untouched => w
      case Marked => w.(oauth := Save(w.oauth, c.id, Cut))
      case Invalidated => w.(oauth := Invalidate(w.oauth, c.id))
      case Confirmed => w.(oauth := Invalidate(w.oauth, c.id), tables := if committed then CompleteCleanup(w.tables, c, now).0 else w.tables)
  }

  // The failure is charged only when the row still has the revision that was read.
  ghost predicate Charged(t: Tables, c: Cleanup) {
    var app := Holder(t.rows, c.id);
    app.Some? && t.rows[app.value].status.Disabling? && t.rows[app.value].cleanup.revision == c.revision
  }

  ghost function Failed(w: World, c: Cleanup, now: int): World {
    w.(tables := RecordFailure(w.tables, c, now), charges := if Charged(w.tables, c) then w.charges + [Charge(c.id, c.revision)] else w.charges)
  }

  ghost function Run(w: World, turns: seq<Turn>): World {
    if turns == [] then w else Next(Run(w, turns[..|turns| - 1]), turns[|turns| - 1])
  }

  // Clock readings never go back, within a transaction or between two.
  ghost predicate Timed(turns: seq<Turn>) {
    && (forall i :: 0 <= i < |turns| ==> turns[i].now <= turns[i].later)
    && (forall i, j :: 0 <= i < j < |turns| ==> turns[i].later <= turns[j].now)
  }
}
