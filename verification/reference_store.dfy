// The reference app's tables as its transactions change them.
module ReferenceStore {
  import opened Base
  import opened RemoteApp
  import opened Pipeline
  import opened PipelineApp
  import opened PaymentOperations
  import Callbacks

  class Server {
    var resources: map<AppKey, Snapshot>
    var idempotency: map<RequestKey, Record>
    var callbacks: map<Id, Callback>

    function State(): App
      reads this
    {
      App(resources, idempotency, callbacks)
    }

    // What every transaction finds and leaves behind: records and queued callbacks tell
    // true states of their payments, the current state is announced, and no callback
    // has been tried more than twelve times.
    ghost predicate Valid()
      reads this
    {
      AppInv(State()) && Budgeted(callbacks)
    }

    constructor ()
      ensures State() == App(map[], map[], map[]) && Valid()
    {
      resources, idempotency, callbacks := map[], map[], map[];
    }

    lemma RowsStand()
      requires Valid()
      ensures AppRows(resources)
    {
      hide AppRows, AppRecords, AppQueue, AppAnnounced, Budgeted;
    }

    // Under the grant lock: look the key up, move the payment, queue a callback
    // when its status changed, record the response. A failed insert rolls back.
    method Execute(granted: bool, inv: Invocation, newId: Id, delivery: Id, now: int) returns (r: Result<Response>)
      requires Valid()
      modifies this
      ensures (State(), r) == RemoteApp.Execute(old(State()), granted, inv, newId, delivery, now)
      ensures Served(old(State()), State(), granted, inv, newId, delivery, now, r)
      ensures Named(inv.tenant, inv.installation) && NewToApp(old(State()), newId) ==> Valid()
    {
      hide AppInv, Budgeted, NewToApp, Named, Served, SimulatePayment;
      RowsStand();
      RequestsActAsAsked(State(), granted, inv, newId, delivery, now);
      ghost var after := RemoteApp.Execute(State(), granted, inv, newId, delivery, now).0;
      ExecuteKeepsBudget(State(), granted, inv, newId, delivery, now);
      if Named(inv.tenant, inv.installation) && NewToApp(State(), newId) {
        ExecuteKeeps(State(), granted, inv, newId, delivery, now, after);
      }
      if !granted {
        return Err(Unauthenticated);
      }
      var key := RequestKey(inv.tenant, inv.installation, inv.key);
      if key in idempotency {
        return if idempotency[key].hash == inv then Ok(idempotency[key].response) else Err(Conflict);
      }
      var current := None;
      if inv.request.resource != "" {
        var at := AppKey(inv.tenant, inv.installation, inv.request.resource);
        if at !in resources {
          return Err(NotFound);
        }
        current := Some(resources[at]);
      }
      var moved := Simulated(inv, current, newId);
      if moved.Err? {
        return Err(moved.fault);
      }
      var resource := moved.value;
      var before := resources;
      resources := resources[AppKey(inv.tenant, inv.installation, resource.id) := resource];
      if current.None? || resource.status != current.value.status {
        if delivery in callbacks {
          resources := before;
          return Err(Unavailable);
        }
        callbacks := callbacks[delivery := Callback(inv.tenant, inv.installation, Update(resource, now), Pending, 0, now, now)];
      }
      var response := Response(inv.capability, inv.request.operation, inv.installation, true, Some(resource), []);
      idempotency := idempotency[key := Record(inv, response)];
      r := Ok(response);
    }

    // One turn of the callback worker on a row it locked.
    method DeliverOne(id: Id, granted: bool, reply: Callbacks.Reply, now: int) returns (status: Option<QueueStatus>)
      requires Valid()
      modifies this
      ensures Valid()
      ensures if id in old(callbacks) && Callbacks.Due(old(callbacks)[id], now)
              then && callbacks == old(callbacks)[id := Callbacks.Attempt(old(callbacks)[id], granted, reply, now)]
                   && status == Some(callbacks[id].status)
              else callbacks == old(callbacks) && status == None
      ensures id in old(callbacks) && old(callbacks)[id].status.Pending? && old(callbacks)[id].nextAt <= now ==>
                var row := old(callbacks)[id];
                var spent := now - row.createdAt > 86400 || row.attempts >= 12;
                && id in callbacks && status == Some(callbacks[id].status)
                && callbacks[id].attempts == row.attempts + (if granted && !spent then 1 else 0)
                && callbacks[id].status == (if !granted then Cancelled else if spent then Dead else if reply.Accepted? then Delivered
                                            else if reply.Rejected? || row.attempts + 1 >= 12 then Dead else Pending)
      ensures resources == old(resources) && idempotency == old(idempotency)
    {
      hide AppInv, Budgeted, Backoff;
      if id !in callbacks || !Callbacks.Due(callbacks[id], now) {
        return None;
      }
      AttemptKeeps(State(), id, Callbacks.Attempt(callbacks[id], granted, reply, now));
      AttemptKeepsBudget(callbacks, id, granted, reply, now);
      Callbacks.SettledAsAnswered(callbacks[id], granted, reply, now);
      var row := callbacks[id];
      var outcome, attempts := Pending, row.attempts;
      if !granted {
        outcome := Cancelled;
      } else if now - row.createdAt > Callbacks.DAY || attempts >= Callbacks.MAX_ATTEMPTS {
        outcome := Dead;
      } else {
        attempts := attempts + 1;
        if reply.Accepted? {
          outcome := Delivered;
        } else if reply.Rejected? {
          outcome := Dead;
        }
        if outcome.Pending? && attempts >= Callbacks.MAX_ATTEMPTS {
          outcome := Dead;
        }
      }
      callbacks := callbacks[id := row.(status := outcome, attempts := attempts, nextAt := now + Backoff(attempts))];
      status := Some(outcome);
    }
  }
}
