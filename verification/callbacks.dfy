// The reference app's callback queue: one delivery attempt on one queue row.
module Callbacks {
  import opened Base
  import opened RemoteApp

  // 200 with a known outcome; 400, 401, 403, 409, 413 or 415; anything else.
  datatype Reply = Accepted | Rejected | Unanswered

  const MAX_ATTEMPTS := 12
  const DAY := 24 * 3600

  // `granted` says that the installation still has an unrevoked grant. Without
  // one, or when the budget is spent, nothing is sent and no attempt is counted.
  function Attempt(row: Callback, granted: bool, reply: Reply, now: int): Callback {
    if !granted then row.(status := Cancelled, nextAt := now + Backoff(row.attempts))
    else if Spent(row, now) then row.(status := Dead, nextAt := now + Backoff(row.attempts))
    else
      var attempts := row.attempts + 1;
      var status :=
        match reply
        case Accepted => Delivered
        case Rejected => Dead
        case Unanswered => if attempts >= MAX_ATTEMPTS then Dead else Pending;
      row.(status := status, attempts := attempts, nextAt := now + Backoff(attempts))
  }

  predicate Spent(row: Callback, now: int) {
    now - row.createdAt > DAY || row.attempts >= MAX_ATTEMPTS
  }

  predicate Due(row: Callback, now: int) {
    row.status.Pending? && row.nextAt <= now
  }

  // What becomes of a callback that is due: cancelled without a grant, dead when its time
  // or its twelve attempts are spent, and otherwise as the platform answered this attempt.
  lemma SettledAsAnswered(row: Callback, granted: bool, reply: Reply, now: int)
    ensures var spent := now - row.createdAt > 86400 || row.attempts >= 12;
            var next := Attempt(row, granted, reply, now);
            && next == row.(status := next.status, attempts := next.attempts, nextAt := now + Backoff(next.attempts))
            && (!granted ==> next.status.Cancelled? && next.attempts == row.attempts)
            && (granted && spent ==> next.status.Dead? && next.attempts == row.attempts)
            && (granted && !spent ==> next.attempts == row.attempts + 1)
            && (granted && !spent && reply.Accepted? ==> next.status.Delivered?)
            && (granted && !spent && reply.Rejected? ==> next.status.Dead?)
            && (granted && !spent && reply.Unanswered? ==> next.status == if row.attempts + 1 < 12 then Pending else Dead)
  {
    hide Backoff;
  }
}
