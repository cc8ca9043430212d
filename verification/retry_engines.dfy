// The four engines that retry: outbox rows, app callbacks, webhooks and the cleanup
// of remote installations. All give up after twelve attempts and wait twice as long
// each time, up to 256 seconds.
module RetryEngines {
  import opened Base
  import opened RemoteApp
  import opened CapabilityTables
  import Outbox
  import Callbacks
  import Webhooks
  import LifecycleTables

  datatype Job =
    | Publication(id: Id, row: OutboxRow)
    | Report(callback: Callback)
    | Delivery(hook: Webhooks.Hook)
    // A row waiting for revocation; `done` once the remote side has confirmed.
    | Revocation(done: bool, recovery: LifecycleTables.Recovery)

  // One worker turn at time `now`, with what the outside world did.
  datatype Turn = Turn(publish: Outbox.Publish, granted: bool, reply: Callbacks.Reply, finding: Webhooks.Finding, revoked: bool, now: int)

  function Attempts(j: Job): nat {
    match j
    case Publication(_, row) => row.attempts
    case Report(callback) => callback.attempts
    case Delivery(hook) => hook.attempts
    case Revocation(_, recovery) => recovery.attempts
  }

  function NextAt(j: Job): int {
    match j
    case Publication(_, row) => row.nextAt
    case Report(callback) => callback.nextAt
    case Delivery(hook) => hook.nextAt
    case Revocation(_, recovery) => recovery.nextAt
  }

  predicate Open(j: Job) {
    match j
    case Publication(_, row) => !row.published && !row.dead
    case Report(callback) => callback.status.Pending?
    case Delivery(hook) => hook.status.Pending?
    case Revocation(done, recovery) => !done && recovery.attempts < LifecycleTables.MAX_ATTEMPTS
  }

  // The worker's own selection.
  predicate Due(j: Job, now: int) {
    match j
    case Publication(_, row) => Outbox.Due(row, now)
    case Report(callback) => Callbacks.Due(callback, now)
    case Delivery(hook) => Webhooks.Due(hook, now)
    case Revocation(done, recovery) => !done && recovery.attempts < LifecycleTables.MAX_ATTEMPTS && recovery.nextAt <= now
  }

  function Step(j: Job, t: Turn): Job {
    if !Due(j, t.now) then j
    else
      match j
      case Publication(id, row) => Publication(id, Outbox.Attempt(id, row, t.publish, t.now))
      case Report(callback) => Report(Callbacks.Attempt(callback, t.granted, t.reply, t.now))
      case Delivery(hook) => Delivery(Webhooks.Decide(hook, t.finding, t.now))
      case Revocation(_, recovery) =>
        if t.revoked then Revocation(true, LifecycleTables.Recovery(0, t.now, recovery.revision + 1))
        else Revocation(false, LifecycleTables.Postponed(recovery, recovery.attempts, t.now))
  }

  function Drive(j: Job, turns: seq<Turn>): Job {
    if turns == [] then j else Step(Drive(j, turns[..|turns| - 1]), turns[|turns| - 1])
  }

  // How many of the turns found the job due.
  function Worked(j: Job, turns: seq<Turn>): nat {
    if turns == [] then 0
    else
      var rest := turns[..|turns| - 1];
      Worked(j, rest) + (if Due(Drive(j, rest), turns[|turns| - 1].now) then 1 else 0)
  }

  // The waiting times scheduled so far for another attempt.
  function Waited(j: Job, turns: seq<Turn>): int {
    if turns == [] then 0
    else
      var rest, t := turns[..|turns| - 1], turns[|turns| - 1];
      Waited(j, rest) + (if Due(Drive(j, rest), t.now) && Open(Drive(j, turns)) then NextAt(Drive(j, turns)) - t.now else 0)
  }

  // 2 + 4 + ... over the first n attempts.
  function Ladder(n: nat): nat {
    if n == 0 then 0 else Ladder(n - 1) + Backoff(n)
  }

  lemma LadderTop()
    ensures Ladder(8) == 510 && Ladder(11) == 1278
  {
    assert Ladder(4) == 30;
    assert Ladder(8) == 510;
  }

  lemma LadderRises(n: nat, m: nat)
    requires n <= m
    ensures Ladder(n) <= Ladder(m)
  {
    if n < m {
      LadderRises(n, m - 1);
    }
  }

  // One turn on a due job: it ends, or it has one more attempt, at most eleven,
  // and waits exactly the backoff of that attempt.
  lemma TurnEndsOrWaits(j: Job, t: Turn)
    requires Due(j, t.now) && Attempts(j) <= 11
    ensures Attempts(Step(j, t)) <= Attempts(j) + 1
    ensures Open(Step(j, t)) ==> Attempts(Step(j, t)) == Attempts(j) + 1 <= 11 && NextAt(Step(j, t)) == t.now + Backoff(Attempts(j) + 1)
  {
    hide Backoff;
  }

  // Twelve turns settle any job, whatever the outside world does: a job still open
  // has been tried at most eleven times and has waited 2 + 4 + ... + 256 + 256 + ...
  // for that, 1278 seconds at the most; nobody ever sees a thirteenth attempt.
  lemma {:induction false} TwelveAttemptsSettle(j: Job, turns: seq<Turn>)
    requires Open(j) && Attempts(j) == 0
    ensures var k := Drive(j, turns);
            && Attempts(k) <= Worked(j, turns) <= 12
            && (Open(k) ==> Attempts(k) == Worked(j, turns) <= 11)
            && (Worked(j, turns) == 12 ==> !Open(k))
            && 0 <= Waited(j, turns) <= 1278
            && (Open(k) ==> Waited(j, turns) == Ladder(Attempts(k)))
  {
    WaitsClimbTheLadder(j, turns);
    LadderTop();
    LadderRises(if Worked(j, turns) <= 11 then Worked(j, turns) else 11, 11);
  }

  lemma {:induction false} WaitsClimbTheLadder(j: Job, turns: seq<Turn>)
    requires Open(j) && Attempts(j) == 0
    ensures var k := Drive(j, turns);
            && Attempts(k) <= Worked(j, turns) <= 12
            && (Open(k) ==> Attempts(k) == Worked(j, turns) <= 11 && Waited(j, turns) == Ladder(Attempts(k)))
            && (!Open(k) ==> Worked(j, turns) >= 1 && Waited(j, turns) == Ladder(Worked(j, turns) - 1))
  {
    hide Step, Backoff;
    if turns != [] {
      var rest, t := turns[..|turns| - 1], turns[|turns| - 1];
      WaitsClimbTheLadder(j, rest);
      var k := Drive(j, rest);
      if Due(k, t.now) {
        DueIsOpen(k, t.now);
        TurnEndsOrWaits(k, t);
      } else {
        assert Step(k, t) == k by { NotDueKeeps(k, t); }
      }
    }
  }

  lemma DueIsOpen(j: Job, now: int)
    ensures Due(j, now) <==> Open(j) && NextAt(j) <= now
  {
  }

  lemma NotDueKeeps(j: Job, t: Turn)
    requires !Due(j, t.now)
    ensures Step(j, t) == j
  {
  }

  // The turn met a passing fault: nobody refused, nothing was revoked, and the
  // first day is not over.
  predicate Passing(j: Job, t: Turn) {
    match j
    case Publication(id, row) => Outbox.Publishable(id, row) && t.publish.NoAnswer? && t.now - row.occurredAt <= Outbox.DAY
    case Report(callback) => t.granted && t.reply.Unanswered? && t.now - callback.createdAt <= Callbacks.DAY
    case Delivery(hook) => t.finding.Callable? && !(t.finding.connected && t.finding.delivered) && t.now - hook.createdAt <= Webhooks.DAY
    case Revocation(_, _) => !t.revoked
  }

  lemma PassingTurnCounts(j: Job, t: Turn)
    requires Due(j, t.now) && Passing(j, t) && Attempts(j) <= 11
    ensures Attempts(Step(j, t)) == Attempts(j) + 1 && (Open(Step(j, t)) <==> Attempts(j) + 1 < 12)
  {
    hide Backoff;
  }

  predicate AllPassing(j: Job, turns: seq<Turn>) {
    forall i :: 0 <= i < |turns| ==> Passing(Drive(j, turns[..i]), turns[i])
  }

  // The budget is also granted in full: passing faults within the first day end a
  // job at the twelfth attempt and not before.
  lemma {:induction false} PassingFaultsGetTwelveAttempts(j: Job, turns: seq<Turn>)
    requires Open(j) && Attempts(j) == 0 && AllPassing(j, turns)
    ensures Attempts(Drive(j, turns)) == Worked(j, turns)
    ensures Open(Drive(j, turns)) <==> Worked(j, turns) < 12
  {
    hide Backoff, Step, Passing, Open, Due;
    if turns != [] {
      var rest, t := turns[..|turns| - 1], turns[|turns| - 1];
      assert AllPassing(j, rest) by {
        forall i | 0 <= i < |rest|
          ensures Passing(Drive(j, rest[..i]), rest[i])
        {
          assert rest[..i] == turns[..i];
        }
      }
      PassingFaultsGetTwelveAttempts(j, rest);
      TwelveAttemptsSettle(j, rest);
      var k := Drive(j, rest);
      assert Passing(Drive(j, turns[..|turns| - 1]), turns[|turns| - 1]);
      if Due(k, t.now) {
        DueIsOpen(k, t.now);
        PassingTurnCounts(k, t);
      } else {
        NotDueKeeps(k, t);
      }
    }
  }

  // ------------------------------------------------------------------- revival

  // A replay resets the attempts of a row but not its age: more than a day after the
  // event it gives one attempt. Exactly, the first turn after a replay leaves the row
  // waiting only if the broker did not answer within the event's first day.
  lemma RevivedWaitsExactlyWhen(id: Id, row: OutboxRow, now: int, t: Turn)
    requires Outbox.Replay(row, now).Ok? && now <= t.now
    ensures Open(Step(Publication(id, Outbox.Replay(row, now).value), t)) <==> Outbox.Publishable(id, row) && t.publish.NoAnswer? && t.now - row.occurredAt <= Outbox.DAY
  {
    hide Backoff;
    assert Due(Publication(id, Outbox.Replay(row, now).value), t.now);
  }

  // Two owners who saw the same revision cannot both revive a delivery.
  lemma ReviveOnce(h: Webhooks.Hook, expected: nat, now: int, turns: seq<Turn>, later: int)
    requires Webhooks.Revive(h, Some(expected), now).Ok?
    ensures var k := Drive(Delivery(Webhooks.Revive(h, Some(expected), now).value), turns);
            k.Delivery? && k.hook.revision > expected && Webhooks.Revive(k.hook, Some(expected), later).Err?
  {
    RevisionsRise(Webhooks.Revive(h, Some(expected), now).value, turns);
  }

  lemma {:induction false} RevisionsRise(h: Webhooks.Hook, turns: seq<Turn>)
    ensures Drive(Delivery(h), turns).Delivery? && Drive(Delivery(h), turns).hook.revision == h.revision + Worked(Delivery(h), turns)
  {
    if turns != [] {
      RevisionsRise(h, turns[..|turns| - 1]);
    }
  }
}
