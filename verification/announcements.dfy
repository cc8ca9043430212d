// How events are born: whatever the platform announces waits in the outbox from the
// moment it happened, and the broker can be given it at once.
module Announcements {
  import opened Base
  import opened Events
  import opened RemoteApp
  import opened CapabilityTables
  import Outbox

  // Neither published nor dead nor tried, and due since it happened at `now`.
  predicate Waiting(row: OutboxRow, now: int) {
    !row.published && !row.dead && row.attempts == 0 && row.occurredAt == now && row.nextAt <= now && row.tenant == row.envelope.tenant
  }

  // Rows stay as they were, and what is new is waiting.
  ghost predicate OnlyWaiting(a: map<Id, OutboxRow>, b: map<Id, OutboxRow>, now: int) {
    && (forall e :: e in a ==> e in b && b[e] == a[e])
    && (forall e :: e in b && e !in a ==> Waiting(b[e], now))
  }

  // The event contract accepts the row exactly when the ids it was given are tokens.
  ghost predicate Sendable(event: Id, row: OutboxRow, tenant: Id, actor: Id, correlation: string, now: int) {
    Outbox.Publishable(event, row) <==> Token(event) && Token(tenant) && Token(actor) && Token(correlation) && now != 0
  }

  // A waiting row is due at once and stays so; the first attempt that is acknowledged
  // publishes it, unless it is no valid event: then the first attempt kills it.
  lemma WaitingIsSent(id: Id, row: OutboxRow, now: int, p: Outbox.Publish, at: int)
    requires Waiting(row, now) && now <= at
    ensures Outbox.Due(row, at)
    ensures var sent := Outbox.Attempt(id, row, p, at);
            && (sent.published <==> Outbox.Publishable(id, row) && p.Acked?)
            && (Outbox.Publishable(id, row) && !p.Permanent? && at - now <= 86400 ==> !sent.dead)
            && (!Outbox.Publishable(id, row) ==> sent.dead)
  {
    hide Outbox.Publishable, Backoff;
  }

  // The event of a change of status: one row more, with the payment as it is stored now,
  // waiting to be sent.
  lemma AppliedIsAnnounced(p: Platform, tenant: Id, ins: Id, actor: Id, correlation: string, next: Snapshot, event: Id, now: int, q: Platform, stored: Snapshot)
    requires SavePayment(p, tenant, ins, actor, correlation, next, event, now) == Ok((q, stored, Applied))
    ensures event !in p.events && event in q.events && q.events == p.events[event := q.events[event]] && Waiting(q.events[event], now)
    ensures ResourceKey(tenant, next.id) in q.resources
    ensures var e, row := q.events[event].envelope, q.resources[ResourceKey(tenant, next.id)];
            && e == Envelope(event, PaymentStatusChanged, 1, now, tenant, next.id, actor, correlation, correlation, "emisell-app-platform", e.payload)
            && e.payload == Payment(StatusEvent(next.id, ins, next.reference, next.status, next.amountMinor, next.currency, row.statusRevision, true))
            && row.data == next
    ensures Sendable(event, q.events[event], tenant, actor, correlation, now)
  {
    hide Token;
  }

  lemma SavedIsWaiting(p: Platform, tenant: Id, ins: Id, actor: Id, correlation: string, next: Snapshot, event: Id, now: int)
    ensures match SavePayment(p, tenant, ins, actor, correlation, next, event, now)
            case Err(_) => true
            case Ok((q, _, outcome)) =>
              && OnlyWaiting(p.events, q.events, now) && q.events.Keys <= p.events.Keys + {event}
              && (outcome.Applied? <==> event !in p.events && event in q.events)
              && (outcome.Applied? ==> Sendable(event, q.events[event], tenant, actor, correlation, now))
  {
    hide SavePayment, Outbox.Publishable;
    var saved := SavePayment(p, tenant, ins, actor, correlation, next, event, now);
    if saved.Ok? {
      if saved.value.2.Applied? {
        AppliedIsAnnounced(p, tenant, ins, actor, correlation, next, event, now, saved.value.0, saved.value.1);
      } else {
        UnappliedIsSilent(p, tenant, ins, actor, correlation, next, event, now);
      }
    }
  }

  lemma UnappliedIsSilent(p: Platform, tenant: Id, ins: Id, actor: Id, correlation: string, next: Snapshot, event: Id, now: int)
    ensures var saved := SavePayment(p, tenant, ins, actor, correlation, next, event, now);
            saved.Ok? && !saved.value.2.Applied? ==> saved.value.0.events == p.events
  {
    hide Fold;
  }

  // A callback that is answered Applied has announced itself; any other answer announces
  // nothing.
  lemma CallbackIsAnnounced(p: Platform, tenant: Id, ins: Id, delivery: Id, u: Update, correlation: string, event: Id, now: int)
    ensures var (q, r) := ApplyCallback(p, tenant, ins, delivery, u, correlation, event, now);
            && OnlyWaiting(p.events, q.events, now) && q.events.Keys <= p.events.Keys + {event}
            && (r == Ok(Applied) <==> event !in p.events && event in q.events)
            && (r == Ok(Applied) ==> Sendable(event, q.events[event], tenant, "app-callback", correlation, now))
  {
    hide SavePayment, Owns, Sendable;
    SavedIsWaiting(p, tenant, ins, "app-callback", correlation, u.resource, event, now);
  }

  // An invocation that is recorded announces itself, and before it the change of status
  // it made; one that is refused or repeated announces nothing.
  lemma InvocationIsAnnounced(p: Platform, user: Id, tenant: Id, cap: Capability, ins: Id, key: string, correlation: string,
                              req: Request, run: Option<Snapshot> -> Result<Answer>, status: Id, invoked: Id, now: int)
    ensures var (q, r) := CapabilityTables.Execute(p, user, tenant, cap, ins, key, correlation, req, run, status, invoked, now);
            && OnlyWaiting(p.events, q.events, now) && q.events.Keys <= p.events.Keys + {status, invoked}
            && (r.Ok? && InvocationKey(tenant, user, key) !in p.receipts ==>
                  && invoked !in p.events && invoked in q.events
                  && q.events[invoked].envelope == Envelope(invoked, CapabilityInvoked, 1, now, tenant, ins, user, correlation, correlation, "emisell-app-platform", q.events[invoked].envelope.payload)
                  && (Token(ins) ==> Sendable(invoked, q.events[invoked], tenant, user, correlation, now)))
            && (status in q.events && status !in p.events && status != invoked ==> Sendable(status, q.events[status], tenant, user, correlation, now))
            && (r.Err? || InvocationKey(tenant, user, key) in p.receipts ==> q == p)
  {
    hide Store, Current, Token, Sendable, NewRow, NewEvent, OnlyWaiting;
    var (q, r) := CapabilityTables.Execute(p, user, tenant, cap, ins, key, correlation, req, run, status, invoked, now);
    AddsNothing(p.events, now);
    var c := Current(p, tenant, ins, cap, req.resource);
    if InvocationKey(tenant, user, key) !in p.receipts && c.Ok? && run(c.value).Ok? {
      StoredIsWaiting(p, tenant, ins, cap, user, correlation, run(c.value).value.resource, status, now);
      if r.Ok? {
        var stored := Store(p, tenant, ins, cap, user, correlation, run(c.value).value.resource, status, now).value.0;
        InvokedIsWaiting(p.events, stored.events, tenant, user, ins, correlation, invoked, now);
      }
    }
  }

  lemma AddsNothing(events: map<Id, OutboxRow>, now: int)
    ensures OnlyWaiting(events, events, now)
  {
  }

  lemma InvokedIsWaiting(before: map<Id, OutboxRow>, events: map<Id, OutboxRow>, tenant: Id, user: Id, ins: Id, correlation: string, invoked: Id, now: int)
    requires OnlyWaiting(before, events, now) && invoked !in events
    ensures var row := NewRow(NewEvent(invoked, CapabilityInvoked, now, tenant, user, ins, correlation, Details("capability,operation")));
            && invoked !in before && OnlyWaiting(before, events[invoked := row], now) && (Token(ins) ==> Sendable(invoked, row, tenant, user, correlation, now))
            && row.envelope == Envelope(invoked, CapabilityInvoked, 1, now, tenant, ins, user, correlation, correlation, "emisell-app-platform", row.envelope.payload)
  {
    hide Token;
  }

  lemma StoredIsWaiting(p: Platform, tenant: Id, ins: Id, cap: Capability, user: Id, correlation: string, resource: Option<Snapshot>, status: Id, now: int)
    ensures match Store(p, tenant, ins, cap, user, correlation, resource, status, now)
            case Err(_) => true
            case Ok((q, _)) =>
              && OnlyWaiting(p.events, q.events, now) && q.events.Keys <= p.events.Keys + {status}
              && (status in q.events && status !in p.events ==> Sendable(status, q.events[status], tenant, user, correlation, now))
  {
    hide SavePayment;
    if resource.Some? {
      SavedIsWaiting(p, tenant, ins, user, correlation, resource.value, status, now);
    }
  }
}
