// The app's own steps keep its tables truthful.
module PipelineApp {
  import opened Base
  import opened Events
  import opened RemoteApp
  import opened CapabilityTables
  import opened PaymentHistory
  import opened Pipeline
  import Callbacks

  lemma GenuineKept(a: map<AppKey, Snapshot>, b: map<AppKey, Snapshot>, tenant: Id, ins: Id, r: Snapshot)
    requires Evolves(a, b) && Genuine(a, tenant, ins, r)
    ensures Genuine(b, tenant, ins, r)
  {
    assert AppKey(tenant, ins, r.id) in a;
  }

  // `r` is where one simulator run takes the payment `c`, or a new payment.
  ghost predicate Follows(c: Option<Snapshot>, r: Snapshot) {
    && ValidPayment(r)
    && (c.None? ==> r.status.Authorized? && r.revision == 1)
    && (c.Some? ==> SameIdentity(c.value, r) && c.value.revision <= r.revision
                    && Rank(c.value.status) - c.value.revision == Rank(r.status) - r.revision
                    && (c.value.status == r.status ==> c.value == r))
  }

  lemma SimulatorFollows(req: Request, c: Option<Snapshot>, newId: Id)
    requires Token(newId) && (c.Some? ==> ValidPayment(c.value))
    requires SimulatePayment(req, c, newId).Ok?
    ensures var r := SimulatePayment(req, c, newId).value;
            (req.operation.Create? ==> r.id == newId && Follows(None, r)) && (!req.operation.Create? ==> c.Some? && Follows(c, r))
    ensures req.operation.Create? <==> req.resource == ""
  {
  }

  // The effect of an app run that changed something: one payment `r` at `k`, one
  // receipt, and a callback exactly when the payment is new or its status moved.
  ghost predicate Wrote(a: App, b: App, inv: Invocation, k: AppKey, r: Snapshot, delivery: Id, now: int) {
    var c := Find(a.resources, k);
    var response := Response(inv.capability, inv.request.operation, inv.installation, true, Some(r), []);
    && k == AppKey(inv.tenant, inv.installation, r.id)
    && Follows(c, r)
    && b.resources == a.resources[k := r]
    && b.idempotency == a.idempotency[RequestKey(inv.tenant, inv.installation, inv.key) := Record(inv, response)]
    && (if c.Some? && c.value.status == r.status then b.callbacks == a.callbacks
        else delivery !in a.callbacks && b.callbacks == a.callbacks[delivery := Callback(inv.tenant, inv.installation, Update(r, now), Pending, 0, now, now)])
  }

  // A new random id, as far as the app knows.
  predicate NewToApp(a: App, id: Id) {
    Token(id) && forall k :: k in a.resources ==> k.id != id
  }

  lemma ExecuteWrites(a: App, granted: bool, inv: Invocation, newId: Id, delivery: Id, now: int) returns (k: AppKey, r: Snapshot)
    requires AppRows(a.resources) && NewToApp(a, newId)
    ensures var b := RemoteApp.Execute(a, granted, inv, newId, delivery, now).0;
            b == a || (Wrote(a, b, inv, k, r, delivery, now) && (k in a.resources || k.id == newId))
  {
    var b := RemoteApp.Execute(a, granted, inv, newId, delivery, now).0;
    if b != a {
      var current := if inv.request.resource != "" then Some(a.resources[AppKey(inv.tenant, inv.installation, inv.request.resource)]) else None;
      SimulatorFollows(inv.request, current, newId);
      r := SimulatePayment(inv.request, current, newId).value;
      k := AppKey(inv.tenant, inv.installation, r.id);
      assert Find(a.resources, k) == current;
    } else {
      k, r := AppKey("", "", ""), Snapshot("", "", Authorized, 0, "", 0);
    }
  }

  lemma RowsKept(a: map<AppKey, Snapshot>, k: AppKey, r: Snapshot)
    requires AppRows(a) && k.id == r.id && Follows(Find(a, k), r) && Named(k.tenant, k.installation)
    requires k in a || forall l :: l in a ==> l.id != k.id
    ensures AppRows(a[k := r]) && Evolves(a, a[k := r])
  {
  }

  lemma QueueKept(a: App, b: App, inv: Invocation, k: AppKey, r: Snapshot, delivery: Id, now: int)
    requires AppInv(a) && Wrote(a, b, inv, k, r, delivery, now) && Evolves(a.resources, b.resources)
    ensures AppRecords(b) && AppQueue(b)
  {
    hide AppAnnounced, Evolves, Token, ValidMoney;
    forall q | q in a.idempotency && a.idempotency[q].response.resource.Some?
      ensures Genuine(b.resources, q.tenant, q.installation, a.idempotency[q].response.resource.value)
    {
      GenuineKept(a.resources, b.resources, q.tenant, q.installation, a.idempotency[q].response.resource.value);
    }
    forall d | d in a.callbacks
      ensures Genuine(b.resources, a.callbacks[d].tenant, a.callbacks[d].installation, a.callbacks[d].body.resource)
    {
      GenuineKept(a.resources, b.resources, a.callbacks[d].tenant, a.callbacks[d].installation, a.callbacks[d].body.resource);
    }
    assert Genuine(b.resources, inv.tenant, inv.installation, r);
  }

  lemma AnnouncedKept(a: App, b: App, inv: Invocation, k: AppKey, r: Snapshot, delivery: Id, now: int)
    requires AppAnnounced(a) && Wrote(a, b, inv, k, r, delivery, now)
    ensures AppAnnounced(b)
  {
    forall l | l in b.resources && b.resources[l].revision >= 1
      ensures exists d :: d in b.callbacks && Announces(b.callbacks[d], l, b.resources[l])
    {
      if l in a.resources && a.resources[l] == b.resources[l] {
        var d :| d in a.callbacks && Announces(a.callbacks[d], l, a.resources[l]);
        assert d in b.callbacks && Announces(b.callbacks[d], l, b.resources[l]);
      } else {
        assert Announces(b.callbacks[delivery], l, r);
      }
    }
  }

  lemma WroteKeeps(a: App, b: App, inv: Invocation, k: AppKey, r: Snapshot, delivery: Id, now: int)
    requires AppInv(a) && Wrote(a, b, inv, k, r, delivery, now) && Named(inv.tenant, inv.installation)
    requires k in a.resources || forall l :: l in a.resources ==> l.id != k.id
    ensures AppInv(b) && Evolves(a.resources, b.resources)
    ensures forall d :: d in a.callbacks ==> d in b.callbacks && b.callbacks[d] == a.callbacks[d]
  {
    hide ValidPayment, AppRecords, AppQueue, AppAnnounced, Token, Follows;
    RowsKept(a.resources, k, r);
    QueueKept(a, b, inv, k, r, delivery, now);
    AnnouncedKept(a, b, inv, k, r, delivery, now);
  }

  // What one app run does to the whole of the app's state.
  lemma ExecuteKeeps(a: App, granted: bool, inv: Invocation, newId: Id, delivery: Id, now: int, b: App)
    requires AppInv(a) && NewToApp(a, newId) && Named(inv.tenant, inv.installation)
    requires b == RemoteApp.Execute(a, granted, inv, newId, delivery, now).0
    ensures AppInv(b) && Evolves(a.resources, b.resources)
    ensures forall k :: k in b.resources && k !in a.resources ==> k == AppKey(inv.tenant, inv.installation, newId)
    ensures forall d :: d in a.callbacks ==> d in b.callbacks && b.callbacks[d] == a.callbacks[d]
  {
    var k, r := ExecuteWrites(a, granted, inv, newId, delivery, now);
    if b != a {
      WroteKeeps(a, b, inv, k, r, delivery, now);
    }
  }

  // A delivery attempt touches no payment and no body.
  lemma AttemptKeeps(a: App, delivery: Id, row: Callback)
    requires AppInv(a) && delivery in a.callbacks
    requires row == a.callbacks[delivery].(status := row.status, attempts := row.attempts, nextAt := row.nextAt)
    ensures AppInv(a.(callbacks := a.callbacks[delivery := row]))
  {
    hide Genuine;
    var b := a.(callbacks := a.callbacks[delivery := row]);
    forall k | k in b.resources && b.resources[k].revision >= 1
      ensures exists d :: d in b.callbacks && Announces(b.callbacks[d], k, b.resources[k])
    {
      var d :| d in a.callbacks && Announces(a.callbacks[d], k, a.resources[k]);
      assert Announces(b.callbacks[d], k, b.resources[k]);
    }
  }

  // No callback is tried more than twelve times.
  ghost predicate Budgeted(callbacks: map<Id, Callback>) {
    forall d :: d in callbacks ==> callbacks[d].attempts <= Callbacks.MAX_ATTEMPTS && (callbacks[d].status.Pending? ==> callbacks[d].attempts < Callbacks.MAX_ATTEMPTS)
  }

  lemma ExecuteKeepsBudget(a: App, granted: bool, inv: Invocation, newId: Id, delivery: Id, now: int)
    requires Budgeted(a.callbacks)
    ensures Budgeted(RemoteApp.Execute(a, granted, inv, newId, delivery, now).0.callbacks)
  {
    hide Simulated;
  }

  lemma AttemptKeepsBudget(callbacks: map<Id, Callback>, delivery: Id, granted: bool, reply: Callbacks.Reply, now: int)
    requires Budgeted(callbacks) && delivery in callbacks && callbacks[delivery].status.Pending?
    ensures Budgeted(callbacks[delivery := Callbacks.Attempt(callbacks[delivery], granted, reply, now)])
  {
    hide Backoff;
  }
}
