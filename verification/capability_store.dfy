// The capability tables as the transactions change them: row by row, with a
// rollback on every error.
module CapabilityStore {
  import opened Base
  import opened Events
  import opened RemoteApp
  import opened CapabilityTables
  import opened Announcements
  import PaymentHistory
  import PaymentTruth

  lemma NewEventHasId(id: Id, kind: EventType, now: int, tenant: Id, actor: Id, subject: Id, correlation: string, payload: Payload)
    ensures NewEvent(id, kind, now, tenant, actor, subject, correlation, payload).id == id
  {
  }

  class Repository {
    var resources: map<ResourceKey, Row>
    var events: map<Id, OutboxRow>
    var inbox: map<CallbackKey, Received>
    var receipts: map<InvocationKey, Receipt>

    function State(): Platform
      reads this
    {
      Platform(resources, events, inbox, receipts)
    }

    // What every transaction finds and leaves behind.
    ghost predicate Valid()
      reads this
    {
      PaymentTruth.Truthful(State())
    }

    constructor ()
      ensures State() == Platform(map[], map[], map[], map[]) && Valid()
    {
      resources, events, inbox, receipts := map[], map[], map[], map[];
      new;
      PaymentTruth.EmptyIsTruthful();
    }

    // INSERT INTO events: a taken id fails the transaction.
    method InsertEvent(e: Envelope) returns (ok: bool)
      modifies this`events
      ensures ok == (e.id !in old(events))
      ensures events == if ok then old(events)[e.id := NewRow(e)] else old(events)
    {
      ok := e.id !in events;
      if ok {
        events := events[e.id := NewRow(e)];
      }
    }

    // Runs inside the caller's transaction: on an error the tables may hold a part
    // of the change, which the caller rolls back.
    method SavePayment(tenant: Id, ins: Id, actor: Id, correlation: string, next: Snapshot, event: Id, now: int) returns (r: Result<(Snapshot, Outcome)>)
      modifies this`resources, this`events
      ensures match CapabilityTables.SavePayment(old(State()), tenant, ins, actor, correlation, next, event, now)
              case Err(f) => r == Err(f)
              case Ok((p, stored, outcome)) => r == Ok((stored, outcome)) && State() == p
      ensures r.Ok? ==> OnlyWaiting(old(events), events, now) && (r.value.1.Applied? <==> event !in old(events) && event in events)
    {
      hide Waiting, OnlyWaiting;
      SavedIsWaiting(State(), tenant, ins, actor, correlation, next, event, now);
      var key := ResourceKey(tenant, next.id);
      var known := key in resources;
      var revision := if known then resources[key].statusRevision else 0;
      var changed := !known || resources[key].data.status != next.status || revision == 0;
      if known {
        var row := resources[key];
        if !row.capability.PaymentV1? || row.installation != ins || !SameMoney(row.data, next) {
          return Err(Conflict);
        }
        if next.revision < row.data.revision {
          return Ok((row.data, Stale));
        }
        if next.revision == row.data.revision && next.status != row.data.status {
          return Err(Conflict);
        }
        if Rank(next.status) < Rank(row.data.status) {
          return Err(Conflict);
        }
      }
      if changed {
        revision := revision + 1;
      }
      var status := StatusOf(ins, next, revision);
      if !ValidStatus(status) {
        return Err(Invalid);
      }
      resources := resources[key := Row(ins, PaymentV1, next, revision)];
      if !changed {
        return Ok((next, Unchanged));
      }
      var ok := InsertEvent(NewEvent(event, PaymentStatusChanged, now, tenant, actor, next.id, correlation, Payment(status)));
      r := if ok then Ok((next, Applied)) else Err(Unavailable);
    }

    method Rollback(p: Platform)
      modifies this
      ensures State() == p
    {
      resources, events, inbox, receipts := p.resources, p.events, p.inbox, p.receipts;
    }

    // The transaction of one signed callback is the step of the tables, outcome included,
    // and keeps them truthful whatever the callback says.
    method ApplyCallback(tenant: Id, ins: Id, delivery: Id, u: Update, correlation: string, event: Id, now: int) returns (r: Result<Outcome>)
      requires Valid()
      modifies this
      ensures (State(), r) == CapabilityTables.ApplyCallback(old(State()), tenant, ins, delivery, u, correlation, event, now) && Valid()
      ensures OnlyWaiting(old(events), events, now) && (r == Ok(Applied) <==> event !in old(events) && event in events)
    {
      hide CapabilityTables.SavePayment, Owns, PaymentTruth.Truthful, OnlyWaiting;
      CallbackIsAnnounced(State(), tenant, ins, delivery, u, correlation, event, now);
      var before := State();
      ghost var after := PaymentTruth.CallbackStaysTruthful(before, tenant, ins, delivery, u, correlation, event, now);
      var key := CallbackKey(tenant, ins, delivery);
      if key in inbox {
        return if inbox[key].body == u then Ok(Duplicate) else Err(Conflict);
      }
      if !Owns(State(), tenant, ins, PaymentV1, u.resource.id) {
        return Err(NotFound);
      }
      var saved := SavePayment(tenant, ins, "app-callback", correlation, u.resource, event, now);
      match saved
      case Err(f) =>
        Rollback(before);
        r := Err(f);
      case Ok((_, outcome)) =>
        inbox := inbox[key := Received(u, outcome)];
        r := Ok(outcome);
    }

    // INSERT ... ON CONFLICT DO UPDATE for anything that is not a payment.
    method Upsert(tenant: Id, ins: Id, cap: Capability, next: Snapshot)
      requires !cap.PaymentV1?
      modifies this`resources
      ensures CapabilityTables.Store(old(State()), tenant, ins, cap, "", "", Some(next), "", 0) == Ok((State(), Some(next)))
    {
      var key := ResourceKey(tenant, next.id);
      if key !in resources {
        resources := resources[key := Row(ins, cap, next, 0)];
      } else if resources[key].installation == ins {
        resources := resources[key := resources[key].(data := next)];
      }
    }

    // What the runtime answered, inside the caller's transaction.
    method Store(tenant: Id, ins: Id, cap: Capability, user: Id, correlation: string, resource: Option<Snapshot>, status: Id, now: int) returns (r: Result<Option<Snapshot>>)
      modifies this`resources, this`events
      ensures match CapabilityTables.Store(old(State()), tenant, ins, cap, user, correlation, resource, status, now)
              case Err(f) => r == Err(f)
              case Ok((p, stored)) => r == Ok(stored) && State() == p
    {
      hide CapabilityTables.SavePayment;
      if resource.None? {
        return Ok(None);
      }
      if cap.PaymentV1? {
        var saved := SavePayment(tenant, ins, user, correlation, resource.value, status, now);
        return if saved.Ok? then Ok(Some(saved.value.0)) else Err(saved.fault);
      }
      Upsert(tenant, ins, cap, resource.value);
      r := Ok(resource);
    }

    // One invocation: look the key up, run the app, store what it answered, announce
    // it and record the response, or leave no trace.
    method Execute(user: Id, tenant: Id, cap: Capability, ins: Id, key: string, correlation: string,
                   req: Request, run: Option<Snapshot> -> Result<Answer>, status: Id, invoked: Id, now: int) returns (r: Result<Response>)
      requires Valid()
      modifies this
      ensures (State(), r) == CapabilityTables.Execute(old(State()), user, tenant, cap, ins, key, correlation, req, run, status, invoked, now)
      ensures Valid() <==> InvocationKey(tenant, user, key) in old(receipts) || r.Err? || PaymentTruth.Spares(old(State()), tenant, ins, cap, PaymentHistory.AnswerOf(old(State()), tenant, ins, cap, req, run))
      ensures OnlyWaiting(old(events), events, now) && (r.Ok? && InvocationKey(tenant, user, key) !in old(receipts) ==> invoked !in old(events) && invoked in events)
    {
      hide OnlyWaiting, CapabilityTables.Store, Current, NewEvent, NewRow, PaymentTruth.Truthful, PaymentTruth.Spares, PaymentHistory.AnswerOf;
      var before := State();
      ghost var (after, answered) := CapabilityTables.Execute(before, user, tenant, cap, ins, key, correlation, req, run, status, invoked, now);
      InvocationIsAnnounced(before, user, tenant, cap, ins, key, correlation, req, run, status, invoked, now);
      PaymentTruth.ExecuteStaysTruthfulExactlyWhen(before, user, tenant, cap, ins, key, correlation, req, run, status, invoked, now, after, answered);
      var at := InvocationKey(tenant, user, key);
      var hash := InvocationHash(ins, cap, req);
      if at in receipts {
        return if receipts[at].hash == hash then Ok(receipts[at].response) else Err(Conflict);
      }
      var current := Current(State(), tenant, ins, cap, req.resource);
      if current.Err? {
        return Err(current.fault);
      }
      var answer := run(current.value);
      if answer.Err? {
        return Err(answer.fault);
      }
      var stored := Store(tenant, ins, cap, user, correlation, answer.value.resource, status, now);
      if stored.Err? {
        Rollback(before);
        return Err(stored.fault);
      }
      var e := NewEvent(invoked, CapabilityInvoked, now, tenant, user, ins, correlation, Details("capability,operation"));
      NewEventHasId(invoked, CapabilityInvoked, now, tenant, user, ins, correlation, Details("capability,operation"));
      var ok := InsertEvent(e);
      if !ok {
        Rollback(before);
        return Err(Unavailable);
      }
      var response := Response(cap, req.operation, ins, true, stored.value, answer.value.rates);
      receipts := receipts[at := Receipt(hash, response)];
      r := Ok(response);
    }
  }
}
