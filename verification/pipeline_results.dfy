// What the invariants mean for a payment: consumer, platform and app never
// contradict each other, and agree once everything has been delivered.
module PipelineResults {
  import opened Base
  import opened Events
  import opened RemoteApp
  import opened CapabilityTables
  import opened CoreInbox
  import opened PaymentHistory
  import opened PaymentSeen
  import opened Pipeline
  import opened PipelineLinks
  import opened PipelineDelivery
  import opened PipelineTheorems

  // The consumer has a row exactly when it has taken an event about the payment,
  // the row is the one with the highest revision among those, and nothing from
  // the broker was ever quarantined.
  lemma ConsumerRowIsNewestTaken(t: Sys, key: ResourceKey)
    requires Reachable(t)
    ensures t.core.letters == map[]
    ensures key in t.core.payments <==> exists l :: l in t.core.inbox && About(t.core.inbox[l], key)
    ensures key in t.core.payments ==> Newest(t.core.inbox, key, t.core.payments[key])
  {
    hide Reachable, PaymentsInv, LogInv, PipelineDelivery.Taken, Counted, Newest, About;
    ReachableIsSafe(t);
    if key in t.core.payments {
      NewestIsTaken(t.core.inbox, key, t.core.payments[key]);
    }
  }

  lemma NewestIsTaken(inbox: map<InboxKey, Envelope>, key: ResourceKey, row: PaymentRow)
    requires Newest(inbox, key, row)
    ensures InboxKey(key.tenant, row.event) in inbox && About(inbox[InboxKey(key.tenant, row.event)], key)
  {
  }

  // The consumer is never ahead of the platform and never contradicts it.
  lemma ConsumerNeverAhead(t: Sys, key: ResourceKey)
    requires Reachable(t) && key in t.core.payments
    ensures key in t.platform.resources && Tells(t.core.payments[key].status, t.platform.resources[key])
  {
    hide Reachable, Inv, Tells;
    ReachableIsSafe(t);
    NewestIsTold(t, key);
  }

  lemma NewestIsTold(t: Sys, key: ResourceKey)
    requires Inv(t)
    ensures key in t.core.payments ==> key in t.platform.resources && Tells(t.core.payments[key].status, t.platform.resources[key])
  {
    hide ValidStatus, AppInv, Linked, SeenInv, LogInv, GoodRows, Ordered, Complete, Counted, Tells, ValidEnvelope;
    if key in t.core.payments {
      assert Newest(t.core.inbox, key, t.core.payments[key]);
    }
  }

  ghost predicate AllTaken(t: Sys, key: ResourceKey) {
    forall e :: e in t.platform.events && About(t.platform.events[e].envelope, key) ==> InboxKey(key.tenant, e) in t.core.inbox
  }

  // Once every event about a payment has been taken, in whatever order and however
  // often, the consumer's row is the platform's: status, revision and money.
  lemma AllTakenMeansAgreement(t: Sys, key: ResourceKey)
    requires Reachable(t) && AllTaken(t, key)
    requires key in t.platform.resources && t.platform.resources[key].capability.PaymentV1? && t.platform.resources[key].statusRevision >= 1
    ensures var row := t.platform.resources[key];
            key in t.core.payments && t.core.payments[key].status == StatusOf(row.installation, row.data, row.statusRevision)
  {
    hide Reachable, Inv, AllTaken;
    ReachableIsSafe(t);
    AllTakenAgrees(t, key);
  }

  lemma AllTakenAgrees(t: Sys, key: ResourceKey)
    requires Inv(t) && key in t.platform.resources && t.platform.resources[key].capability.PaymentV1? && t.platform.resources[key].statusRevision >= 1 && AllTaken(t, key)
    ensures var row := t.platform.resources[key];
            key in t.core.payments && t.core.payments[key].status == StatusOf(row.installation, row.data, row.statusRevision)
  {
    hide ValidStatus, AppInv, Linked, SeenInv, LogInv, GoodRows, Ordered, Counted, ValidEnvelope, Inv, History;
    var row := t.platform.resources[key];
    LastIsTold(t, key);
    var e :| e in t.platform.events && Marks(t.platform.events[e].envelope, key, row.statusRevision);
    TakenIsFolded(t, key, e);
    NewestIsTold(t, key);
  }

  lemma LastIsTold(t: Sys, key: ResourceKey)
    requires Inv(t) && key in t.platform.resources && t.platform.resources[key].capability.PaymentV1? && t.platform.resources[key].statusRevision >= 1
    ensures Told(t.platform.events, key, t.platform.resources[key].statusRevision)
  {
    hide AppInv, Linked, SeenInv, LogInv, GoodRows, Ordered, Sound, CoreInv, Told;
  }

  lemma TakenIsFolded(t: Sys, key: ResourceKey, e: Id)
    requires Inv(t) && e in t.platform.events && About(t.platform.events[e].envelope, key) && InboxKey(key.tenant, e) in t.core.inbox
    ensures key in t.core.payments && t.platform.events[e].envelope.payload.status.revision <= t.core.payments[key].status.revision
  {
    hide PaymentsInv, LogInv, Counted, ValidEnvelope;
    assert t.core.inbox[InboxKey(key.tenant, e)] == t.platform.events[e].envelope;
    assert Newest(t.core.inbox, key, t.core.payments[key]);
  }

  ghost predicate AllReported(t: Sys, k: AppKey) {
    forall d :: d in t.app.callbacks && t.app.callbacks[d].tenant == k.tenant && t.app.callbacks[d].installation == k.installation && t.app.callbacks[d].body.resource.id == k.id ==> Reported(t, d)
  }

  // Once the platform has taken every callback about a payment, it stores exactly
  // the state the app's payment is in.
  lemma AllReportedMeansCaughtUp(t: Sys, k: AppKey)
    requires Reachable(t) && k in t.app.resources && t.app.resources[k].revision >= 1 && AllReported(t, k)
    ensures var key := ResourceKey(k.tenant, k.id);
            && key in t.platform.resources && t.platform.resources[key].capability.PaymentV1? && t.platform.resources[key].installation == k.installation
            && t.platform.resources[key].data == t.app.resources[k] && t.platform.resources[key].statusRevision >= 1
  {
    hide Reachable, Inv, AllReported;
    ReachableIsSafe(t);
    AllReportedCatchesUp(t, k);
  }

  lemma CurrentIsAnnounced(a: App, k: AppKey) returns (d: Id)
    requires AppInv(a) && k in a.resources && a.resources[k].revision >= 1
    ensures d in a.callbacks && Announces(a.callbacks[d], k, a.resources[k]) && a.resources[k].id == k.id
  {
    hide AppRecords, AppQueue, ValidPayment;
    d :| d in a.callbacks && Announces(a.callbacks[d], k, a.resources[k]);
  }

  lemma AllReportedCatchesUp(t: Sys, k: AppKey)
    requires Inv(t) && k in t.app.resources && t.app.resources[k].revision >= 1 && AllReported(t, k)
    ensures var key := ResourceKey(k.tenant, k.id);
            && key in t.platform.resources && t.platform.resources[key].capability.PaymentV1? && t.platform.resources[key].installation == k.installation
            && t.platform.resources[key].data == t.app.resources[k] && t.platform.resources[key].statusRevision >= 1
  {
    hide AppInv, History, LogInv, CoreInv, ReceiptsReached, RowsSeen, Token;
    var d := CurrentIsAnnounced(t.app, k);
    var c := CallbackKey(k.tenant, k.installation, d);
    assert Reported(t, d);
    assert Matches(c, t.platform.inbox[c], t.app.callbacks[d]);
    assert Reaches(t.platform, k.tenant, k.installation, t.app.resources[k]);
    var key := ResourceKey(k.tenant, k.id);
    assert Remote(t.simulated, key, t.platform.resources[key]);
    assert Genuine(t.app.resources, k.tenant, k.installation, t.platform.resources[key].data);
  }

  // End to end: everything reported and everything taken, the consumer shows the
  // app's own status and money.
  lemma EverythingDeliveredMeansAgreement(t: Sys, k: AppKey)
    requires Reachable(t) && k in t.app.resources && t.app.resources[k].revision >= 1
    requires AllReported(t, k) && AllTaken(t, ResourceKey(k.tenant, k.id))
    ensures var key := ResourceKey(k.tenant, k.id);
            key in t.core.payments && t.core.payments[key].status == StatusOf(k.installation, t.app.resources[k], t.core.payments[key].status.revision)
  {
    hide Reachable, Inv, AllReported, AllTaken;
    ReachableIsSafe(t);
    AllReportedCatchesUp(t, k);
    AllTakenAgrees(t, ResourceKey(k.tenant, k.id));
  }

  // The platform's stored snapshot is the newest of everything it has seen: each
  // callback body and each recorded invocation answer is at most as new, and one
  // of them is the stored snapshot.
  lemma StoredIsNewestSeen(t: Sys)
    requires Reachable(t)
    ensures SeenInv(t.platform)
  {
    hide Reachable, SeenInv, History, GoodRows, AppInv, Linked, LogInv, CoreInv;
    ReachableIsSafe(t);
  }

  // Per payment the announced revisions are exactly 1..n, each once, with strictly
  // rising rank and the same money; the n-th announces the stored status.
  lemma AnnouncedHistoryIsExact(t: Sys)
    requires Reachable(t)
    ensures History(t.platform)
  {
    hide Reachable, SeenInv, History, GoodRows, AppInv, Linked, LogInv, CoreInv;
    ReachableIsSafe(t);
  }

  // Every callback the app ever queued passes what the platform demands of a signed body
  // before it opens a transaction, so a run may hand over any of them.
  lemma QueuedCallbacksAreAuthentic(t: Sys, delivery: Id)
    requires Reachable(t) && delivery in t.app.callbacks
    ensures Authentic(t.app.callbacks[delivery])
  {
    hide Reachable, History, GoodRows, Linked, SeenInv, LogInv, CoreInv, AppRecords, AppAnnounced, Token;
    ReachableIsSafe(t);
    var c := t.app.callbacks[delivery];
    var k := AppKey(c.tenant, c.installation, c.body.resource.id);
    assert Genuine(t.app.resources, c.tenant, c.installation, c.body.resource) && k in t.app.resources;
  }

  // No callback the app ever queued is refused for its content: the answer is a
  // classification, or the payment is not known to the platform yet, or the new
  // event's id is taken.
  lemma QueuedCallbacksNeverConflict(t: Sys, delivery: Id, correlation: string, event: Id, now: int)
    requires Reachable(t) && delivery in t.app.callbacks
    ensures var c := t.app.callbacks[delivery];
            var r := ApplyCallback(t.platform, c.tenant, c.installation, delivery, c.body, correlation, event, now).1;
            r.Err? ==> (r.fault == NotFound && !Owns(t.platform, c.tenant, c.installation, PaymentV1, c.body.resource.id))
                       || (r.fault == Unavailable && event in t.platform.events)
  {
    hide Reachable, SavePayment, History, GoodRows, AppInv, Linked, SeenInv, Genuine, Continues, LogInv, CoreInv;
    ReachableIsSafe(t);
    var c := t.app.callbacks[delivery];
    QueuedIsGenuine(t, delivery);
    GenuineContinues(t, c.tenant, c.installation, c.body.resource);
    GoodRowsAreSound(t.platform);
    SavePaymentKeeps(t.platform, c.tenant, c.installation, "app-callback", correlation, c.body.resource, event, now);
    assert CallbackKey(c.tenant, c.installation, delivery) in t.platform.inbox ==> Matches(CallbackKey(c.tenant, c.installation, delivery), t.platform.inbox[CallbackKey(c.tenant, c.installation, delivery)], c);
  }
}
