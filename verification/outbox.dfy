// Outbox delivery: at least once, twelve attempts, then dead until replayed.
module Outbox {
  import opened Base
  import opened Events
  import opened CapabilityTables

  // What the broker said: acknowledged, refused for good, or no answer in time.
  datatype Publish = Acked | Permanent | NoAnswer

  const MAX_ATTEMPTS := 12
  const DAY := 24 * 3600

  // Due rows are neither published nor dead and their waiting time has passed.
  predicate Due(row: OutboxRow, now: int) {
    !row.published && !row.dead && row.nextAt <= now
  }

  // A row that does not decode to its own envelope is never published.
  predicate Publishable(id: Id, row: OutboxRow) {
    ValidEnvelope(row.envelope) && row.envelope.id == id && row.envelope.tenant == row.tenant
  }

  // The row after one delivery attempt whose publish ended as `p`.
  function Attempt(id: Id, row: OutboxRow, p: Publish, now: int): OutboxRow {
    var attempts := row.attempts + 1;
    if Publishable(id, row) && p.Acked? then row.(published := true, attempts := attempts)
    else
      var permanent := !Publishable(id, row) || p.Permanent?;
      row.(attempts := attempts, nextAt := now + Backoff(attempts),
           dead := permanent || attempts >= MAX_ATTEMPTS || now - row.occurredAt > DAY)
  }

  // An operator revives a dead row; anything else is not found.
  function Replay(row: OutboxRow, now: int): Result<OutboxRow> {
    if row.dead && !row.published then Ok(row.(attempts := 0, nextAt := now, dead := false)) else Err(NotFound)
  }

  // What becomes of a row that was tried: published when the broker acknowledged a valid
  // event, dead when it can never be or its day or its twelve attempts are over, and
  // otherwise waiting for the next attempt.
  lemma SettledAsAnswered(id: Id, row: OutboxRow, p: Publish, now: int)
    ensures var next := Attempt(id, row, p, now);
            && next == row.(published := next.published, dead := next.dead, attempts := row.attempts + 1, nextAt := next.nextAt)
            && (next.published <==> row.published || (Publishable(id, row) && p.Acked?))
            && (!(Publishable(id, row) && p.Acked?) ==>
                  && (next.dead <==> !Publishable(id, row) || p.Permanent? || row.attempts + 1 >= 12 || now - row.occurredAt > 86400)
                  && next.nextAt == now + Backoff(row.attempts + 1))
            && (Publishable(id, row) && p.Acked? ==> next.dead == row.dead)
  {
    hide Publishable, Backoff;
  }

  // An operator's replay: of a dead row, which is then due at once with all its attempts.
  lemma RevivedExactlyWhen(row: OutboxRow, now: int)
    ensures Replay(row, now).Ok? <==> row.dead && !row.published
    ensures Replay(row, now).Ok? ==> var next := Replay(row, now).value; next == row.(dead := false, attempts := 0, nextAt := now) && Due(next, now)
    ensures Replay(row, now).Err? ==> Replay(row, now).fault == NotFound
  {
  }
}
