// The platform's payment rows and the app's payments tell one story.
module PipelineLinks {
  import opened Base
  import opened RemoteApp
  import opened CapabilityTables
  import opened PaymentHistory
  import opened PaymentSeen
  import opened Pipeline
  import PaymentTruth
  import PipelineApp

  ghost predicate Remote(simulated: set<InstallationKey>, key: ResourceKey, row: Row) {
    row.capability.PaymentV1? && InstallationKey(key.tenant, row.installation) !in simulated
  }

  // A stored remote payment is a state the app's payment went through; every
  // other row has an id the app does not know.
  ghost predicate Linked(simulated: set<InstallationKey>, resources: map<AppKey, Snapshot>, rows: map<ResourceKey, Row>) {
    && (forall key :: key in rows && Remote(simulated, key, rows[key]) ==> Genuine(resources, key.tenant, rows[key].installation, rows[key].data))
    && (forall key, k :: key in rows && k in resources && key.id == k.id ==> Remote(simulated, key, rows[key]))
  }

  ghost predicate Matches(c: CallbackKey, received: Received, queued: Callback) {
    queued.tenant == c.tenant && queued.installation == c.installation && queued.body == received.body
  }

  // Every delivery the platform has taken is one the app queued, body included.
  ghost predicate Queued(a: App, p: Platform) {
    forall c :: c in p.inbox ==> c.delivery in a.callbacks && Matches(c, p.inbox[c], a.callbacks[c.delivery])
  }

  // The app serves no simulated installation.
  ghost predicate OnlyRemote(simulated: set<InstallationKey>, resources: map<AppKey, Snapshot>) {
    forall k :: k in resources ==> InstallationKey(k.tenant, k.installation) !in simulated
  }

  ghost predicate PaymentsInv(s: Sys) {
    && AppInv(s.app) && History(s.platform) && GoodRows(s.platform)
    && Linked(s.simulated, s.app.resources, s.platform.resources)
    && SeenInv(s.platform) && Queued(s.app, s.platform) && OnlyRemote(s.simulated, s.app.resources)
  }

  // Two states of one app payment are ordered by revision.
  lemma GenuineContinues(s: Sys, tenant: Id, ins: Id, next: Snapshot)
    requires PaymentsInv(s) && Genuine(s.app.resources, tenant, ins, next)
    ensures Continues(Find(s.platform.resources, ResourceKey(tenant, next.id)), ins, next)
  {
    var key := ResourceKey(tenant, next.id);
    var k := AppKey(tenant, ins, next.id);
    assert Named(k.tenant, k.installation);
    if key in s.platform.resources {
      var row := s.platform.resources[key];
      assert Remote(s.simulated, key, row);
      assert AppKey(tenant, row.installation, next.id) == k;
    }
  }

  lemma TouchKeepsLinks(s: Sys, q: Platform, tenant: Id, ins: Id, cap: Capability, next: Snapshot)
    requires Linked(s.simulated, s.app.resources, s.platform.resources)
    requires Touched(s.platform, q, ResourceKey(tenant, next.id), ins, cap, next)
    requires InstallationKey(tenant, ins) !in s.simulated ==> cap.PaymentV1? && Genuine(s.app.resources, tenant, ins, next)
    requires InstallationKey(tenant, ins) in s.simulated ==> forall k :: k in s.app.resources ==> k.id != next.id
    requires ResourceKey(tenant, next.id) in s.platform.resources ==> s.platform.resources[ResourceKey(tenant, next.id)].installation == ins
    ensures Linked(s.simulated, s.app.resources, q.resources)
  {
  }

  lemma AppStepKeeps(s: Sys, granted: bool, inv: Invocation, newId: Id, delivery: Id, now: int)
    requires PaymentsInv(s) && Unused(s, newId) && Named(inv.tenant, inv.installation) && InstallationKey(inv.tenant, inv.installation) !in s.simulated
    ensures PaymentsInv(s.(app := RemoteApp.Execute(s.app, granted, inv, newId, delivery, now).0))
  {
    hide RemoteApp.Execute, ValidPayment, AppRecords, AppQueue, AppAnnounced;
    var b := RemoteApp.Execute(s.app, granted, inv, newId, delivery, now).0;
    PipelineApp.ExecuteKeeps(s.app, granted, inv, newId, delivery, now, b);
    forall key | key in s.platform.resources && Remote(s.simulated, key, s.platform.resources[key])
      ensures Genuine(b.resources, key.tenant, s.platform.resources[key].installation, s.platform.resources[key].data)
    {
      PipelineApp.GenuineKept(s.app.resources, b.resources, key.tenant, s.platform.resources[key].installation, s.platform.resources[key].data);
    }
    assert Linked(s.simulated, b.resources, s.platform.resources);
  }

  lemma SaveStepKeeps(s: Sys, tenant: Id, ins: Id, actor: Id, correlation: string, next: Snapshot, event: Id, now: int, q: Platform)
    requires PaymentsInv(s) && Genuine(s.app.resources, tenant, ins, next) && InstallationKey(tenant, ins) !in s.simulated
    requires var r := SavePayment(s.platform, tenant, ins, actor, correlation, next, event, now); r.Ok? && q == r.value.0
    ensures History(q) && GoodRows(q) && Linked(s.simulated, s.app.resources, q.resources) && RowsAdvance(s.platform, q)
    ensures Touched(s.platform, q, ResourceKey(tenant, next.id), ins, PaymentV1, next) && Reaches(q, tenant, ins, next)
    ensures q.inbox == s.platform.inbox && q.receipts == s.platform.receipts
  {
    hide SavePayment, Fold, History, AppInv, ValidPayment, SeenInv;
    GenuineContinues(s, tenant, ins, next);
    GoodRowsAreSound(s.platform);
    SavePaymentKeeps(s.platform, tenant, ins, actor, correlation, next, event, now);
    TouchKeepsLinks(s, q, tenant, ins, PaymentV1, next);
  }

  lemma SaveAccepts(s: Sys, tenant: Id, ins: Id, actor: Id, correlation: string, next: Snapshot, event: Id, now: int)
    requires PaymentsInv(s) && Genuine(s.app.resources, tenant, ins, next)
    ensures var r := SavePayment(s.platform, tenant, ins, actor, correlation, next, event, now); r.Err? ==> r.fault == Unavailable
  {
    hide SavePayment, Fold, History, AppInv, ValidPayment, SeenInv;
    GenuineContinues(s, tenant, ins, next);
    GoodRowsAreSound(s.platform);
    SavePaymentKeeps(s.platform, tenant, ins, actor, correlation, next, event, now);
  }

  lemma QueuedIsGenuine(s: Sys, delivery: Id)
    requires PaymentsInv(s) && delivery in s.app.callbacks
    ensures var c := s.app.callbacks[delivery];
            Genuine(s.app.resources, c.tenant, c.installation, c.body.resource) && InstallationKey(c.tenant, c.installation) !in s.simulated
  {
    var c := s.app.callbacks[delivery];
    assert AppKey(c.tenant, c.installation, c.body.resource.id) in s.app.resources;
  }

  lemma TakenKeeps(s: Sys, p: Platform, delivery: Id, outcome: Outcome, q: Platform)
    requires PaymentsInv(s) && delivery in s.app.callbacks
    requires History(p) && GoodRows(p) && Linked(s.simulated, s.app.resources, p.resources) && RowsAdvance(s.platform, p)
    requires var c := s.app.callbacks[delivery];
             && Touched(s.platform, p, ResourceKey(c.tenant, c.body.resource.id), c.installation, PaymentV1, c.body.resource)
             && Reaches(p, c.tenant, c.installation, c.body.resource) && p.inbox == s.platform.inbox && p.receipts == s.platform.receipts
             && CallbackKey(c.tenant, c.installation, delivery) !in s.platform.inbox
             && q == p.(inbox := p.inbox[CallbackKey(c.tenant, c.installation, delivery) := Received(c.body, outcome)])
    ensures PaymentsInv(s.(platform := q)) && RowsAdvance(s.platform, q)
  {
    hide Sound, Ordered, Complete, AppInv, Linked, GoodRow, Genuine, Touched, SeenInv, Advances, Reaches;
    var c := s.app.callbacks[delivery];
    CallbackKeepsSeen(s.platform, p, c.tenant, c.installation, delivery, Received(c.body, outcome));
  }

  // A callback the app queued never meets Conflict or Invalid: its outcome is a
  // classification, or the payment is not known yet, or the event insert fails.
  lemma CallbackStepKeeps(s: Sys, delivery: Id, c: Callback, correlation: string, event: Id, now: int, q: Platform, r: Result<Outcome>)
    requires PaymentsInv(s) && delivery in s.app.callbacks && c == s.app.callbacks[delivery]
    requires (q, r) == ApplyCallback(s.platform, c.tenant, c.installation, delivery, c.body, correlation, event, now)
    ensures PaymentsInv(s.(platform := q)) && RowsAdvance(s.platform, q)
    ensures r.Err? ==> r.fault == NotFound || r.fault == Unavailable
  {
    hide SavePayment, ApplyCallback, History, GoodRows, AppInv, Linked, Genuine, SeenInv, Touched, Reaches;
    QueuedIsGenuine(s, delivery);
    PaymentTruth.CallbackCases(s.platform, c.tenant, c.installation, delivery, c.body, correlation, event, now, q, r);
    SaveAccepts(s, c.tenant, c.installation, "app-callback", correlation, c.body.resource, event, now);
    if q != s.platform {
      var p1 := SavePayment(s.platform, c.tenant, c.installation, "app-callback", correlation, c.body.resource, event, now).value.0;
      SaveStepKeeps(s, c.tenant, c.installation, "app-callback", correlation, c.body.resource, event, now, p1);
      TakenKeeps(s, p1, delivery, r.value, q);
    }
  }

  // Facts about what the runtimes hand to the platform.

  lemma RecordedAnswerFits(s: Sys, user: Id, tenant: Id, ins: Id, key: string, req: Request)
    requires PaymentsInv(s) && Answered(s, Call(user, tenant, ins, key, req))
    ensures var a := s.app.idempotency[RequestKey(tenant, ins, DerivedKey(tenant, ins, user, key))].response;
            a.resource.Some? ==> Genuine(s.app.resources, tenant, ins, a.resource.value) && Fits(s.platform, tenant, ins, PaymentV1, a.resource.value)
  {
    var a := s.app.idempotency[RequestKey(tenant, ins, DerivedKey(tenant, ins, user, key))].response;
    if a.resource.Some? {
      GenuineContinues(s, tenant, ins, a.resource.value);
    }
  }

  lemma SimulatedFits(s: Sys, tenant: Id, ins: Id, cap: Capability, req: Request, newId: Id)
    requires GoodRows(s.platform) && Unused(s, newId) && Token(ins)
    ensures var c := Current(s.platform, tenant, ins, cap, req.resource);
            c.Ok? && Simulate(cap, req, c.value, newId).Ok? && Simulate(cap, req, c.value, newId).value.resource.Some? ==>
              var next := Simulate(cap, req, c.value, newId).value.resource.value;
              Fits(s.platform, tenant, ins, cap, next) && (next.id == newId || Owns(s.platform, tenant, ins, cap, next.id))
  {
    var c := Current(s.platform, tenant, ins, cap, req.resource);
    if c.Ok? && cap.PaymentV1? && SimulatePayment(req, c.value, newId).Ok? {
      PipelineApp.SimulatorFollows(req, c.value, newId);
    }
  }

  lemma InvokeStepKeeps(s: Sys, q: Platform, user: Id, tenant: Id, ins: Id, cap: Capability, key: string, req: Request, r: Result<Response>, next: Option<Snapshot>)
    requires PaymentsInv(s) && History(q) && GoodRows(q) && RowsAdvance(s.platform, q) && q.inbox == s.platform.inbox
    requires Receipted(s.platform, q, InvocationKey(tenant, user, key), InvocationHash(ins, cap, req), r, next)
    requires next.None? ==> q.resources == s.platform.resources
    requires next.Some? ==>
               && Touched(s.platform, q, ResourceKey(tenant, next.value.id), ins, cap, next.value)
               && (InstallationKey(tenant, ins) !in s.simulated ==> cap.PaymentV1? && Genuine(s.app.resources, tenant, ins, next.value))
               && (InstallationKey(tenant, ins) in s.simulated ==> forall k :: k in s.app.resources ==> k.id != next.value.id)
               && (ResourceKey(tenant, next.value.id) in s.platform.resources ==> s.platform.resources[ResourceKey(tenant, next.value.id)].installation == ins)
               && Fits(s.platform, tenant, ins, cap, next.value)
    ensures PaymentsInv(s.(platform := q))
  {
    hide History, GoodRow, AppInv, Genuine, SeenInv, Receipted, Advances, Continues;
    if next.Some? {
      TouchKeepsLinks(s, q, tenant, ins, cap, next.value);
      FitsIsOwned(s.platform, tenant, ins, cap, next.value);
    }
    ReceiptKeepsSeen(s.platform, q, InvocationKey(tenant, user, key), InvocationHash(ins, cap, req), r, next);
  }

  lemma RemoteStepKeeps(s: Sys, user: Id, tenant: Id, ins: Id, key: string, correlation: string, req: Request, status: Id, invoked: Id, now: int, q: Platform, r: Result<Response>)
    requires PaymentsInv(s) && InstallationKey(tenant, ins) !in s.simulated && Answered(s, Call(user, tenant, ins, key, req))
    requires (q, r) == InvokeRemote(s, user, tenant, ins, key, correlation, req, status, invoked, now)
    ensures PaymentsInv(s.(platform := q)) && RowsAdvance(s.platform, q)
    ensures InvocationKey(tenant, user, key) !in s.platform.receipts ==> r != Err(Conflict)
  {
    hide CapabilityTables.Execute, Plausible, History, GoodRows, AppInv, Genuine, Advances, Touched, Continues, Receipted, SeenInv;
    RecordedAnswerFits(s, user, tenant, ins, key, req);
    var a := s.app.idempotency[RequestKey(tenant, ins, DerivedKey(tenant, ins, user, key))].response;
    var run := _ => RemoteAnswer(ins, PaymentV1, req, a);
    GoodRowsAreSound(s.platform);
    var next := PaymentHistory.ExecuteKeeps(s.platform, user, tenant, PaymentV1, ins, key, correlation, req, run, status, invoked, now);
    assert (q, r) == CapabilityTables.Execute(s.platform, user, tenant, PaymentV1, ins, key, correlation, req, run, status, invoked, now);
    if next.Some? {
      FitsIsOwned(s.platform, tenant, ins, PaymentV1, next.value);
    }
    InvokeStepKeeps(s, q, user, tenant, ins, PaymentV1, key, req, r, next);
  }

  lemma FitsIsOwned(p: Platform, tenant: Id, ins: Id, cap: Capability, next: Snapshot)
    requires Fits(p, tenant, ins, cap, next)
    ensures cap.PaymentV1? && ResourceKey(tenant, next.id) in p.resources ==>
              p.resources[ResourceKey(tenant, next.id)].installation == ins && p.resources[ResourceKey(tenant, next.id)].capability.PaymentV1?
  {
  }

  lemma OwnedIsApart(s: Sys, tenant: Id, ins: Id, cap: Capability, id: Id)
    requires PaymentsInv(s) && InstallationKey(tenant, ins) in s.simulated && Owns(s.platform, tenant, ins, cap, id)
    ensures forall k :: k in s.app.resources ==> k.id != id
  {
  }

  lemma SimulatorStepKeeps(s: Sys, user: Id, tenant: Id, ins: Id, cap: Capability, key: string, correlation: string, req: Request, newId: Id, status: Id, invoked: Id, now: int, q: Platform, r: Result<Response>)
    requires PaymentsInv(s) && InstallationKey(tenant, ins) in s.simulated && Unused(s, newId) && Token(ins)
    requires (q, r) == CapabilityTables.Execute(s.platform, user, tenant, cap, ins, key, correlation, req, current => Simulate(cap, req, current, newId), status, invoked, now)
    ensures PaymentsInv(s.(platform := q)) && RowsAdvance(s.platform, q)
  {
    hide CapabilityTables.Execute, Simulate, History, GoodRows, AppInv, Genuine, Advances, Touched, Fits, Receipted, SeenInv;
    SimulatedFits(s, tenant, ins, cap, req, newId);
    var run := current => Simulate(cap, req, current, newId);
    GoodRowsAreSound(s.platform);
    var next := PaymentHistory.ExecuteKeeps(s.platform, user, tenant, cap, ins, key, correlation, req, run, status, invoked, now);
    assert (q, r) == CapabilityTables.Execute(s.platform, user, tenant, cap, ins, key, correlation, req, run, status, invoked, now);
    if next.Some? && next.value.id != newId {
      OwnedIsApart(s, tenant, ins, cap, next.value.id);
    }
    InvokeStepKeeps(s, q, user, tenant, ins, cap, key, req, r, next);
  }
}
