// What the platform's tables always satisfy, whatever callbacks and answers come in.
module PaymentTruth {
  import opened Base
  import opened Events
  import opened RemoteApp
  import opened CapabilityTables
  import opened PaymentHistory
  import opened PaymentSeen

  // The announced history is exact, and every stored payment is the newest snapshot
  // that came in about it.
  ghost predicate Truthful(p: Platform) {
    History(p) && SoundRows(p) && SeenInv(p)
  }

  lemma EmptyIsTruthful()
    ensures Truthful(Platform(map[], map[], map[], map[]))
  {
  }

  lemma CallbackCases(p: Platform, tenant: Id, ins: Id, delivery: Id, u: Update, correlation: string, event: Id, now: int, q: Platform, r: Result<Outcome>)
    requires (q, r) == ApplyCallback(p, tenant, ins, delivery, u, correlation, event, now)
    ensures var saved := SavePayment(p, tenant, ins, "app-callback", correlation, u.resource, event, now);
            var key := CallbackKey(tenant, ins, delivery);
            && (q == p || (r.Ok? && saved.Ok? && key !in p.inbox && q == saved.value.0.(inbox := saved.value.0.inbox[key := Received(u, r.value)])))
            && (r.Err? ==> (key in p.inbox && p.inbox[key].body != u) || r.fault == NotFound || (saved.Err? && r.fault == saved.fault))
  {
    hide SavePayment;
  }

  lemma InboxIgnored(p1: Platform, q: Platform)
    requires History(p1) && SoundRows(p1) && q == p1.(inbox := q.inbox)
    ensures History(q) && SoundRows(q)
  {
    hide Sound, Ordered, Complete, SoundRow;
  }

  // Any callback at all: forged, garbled, out of order.
  lemma CallbackStaysTruthful(p: Platform, tenant: Id, ins: Id, delivery: Id, u: Update, correlation: string, event: Id, now: int) returns (q: Platform)
    requires Truthful(p)
    ensures q == ApplyCallback(p, tenant, ins, delivery, u, correlation, event, now).0 && Truthful(q)
  {
    hide SavePayment, ApplyCallback, History, SoundRows, GoodRows, SeenInv, RowsAdvance, Continues;
    var (after, r) := ApplyCallback(p, tenant, ins, delivery, u, correlation, event, now);
    q := after;
    CallbackCases(p, tenant, ins, delivery, u, correlation, event, now, q, r);
    if q != p {
      SavePaymentKeeps(p, tenant, ins, "app-callback", correlation, u.resource, event, now);
      var p1 := SavePayment(p, tenant, ins, "app-callback", correlation, u.resource, event, now).value.0;
      CallbackKeepsSeen(p, p1, tenant, ins, delivery, Received(u, r.value));
      InboxIgnored(p1, q);
    }
  }

  // Any payment of any runtime, and whatever keeps off payment rows.
  lemma ExecuteStaysTruthful(p: Platform, user: Id, tenant: Id, cap: Capability, ins: Id, key: string, correlation: string,
                             req: Request, run: Option<Snapshot> -> Result<Answer>, status: Id, invoked: Id, now: int) returns (q: Platform)
    requires Truthful(p)
    requires var a := AnswerOf(p, tenant, ins, cap, req, run); a.Some? ==> Apart(p, tenant, cap, a.value)
    ensures q == CapabilityTables.Execute(p, user, tenant, cap, ins, key, correlation, req, run, status, invoked, now).0 && Truthful(q)
  {
    hide CapabilityTables.Execute, History, SoundRows, GoodRows, SeenInv, Touched, RowsAdvance, Receipted, Fits, AnswerOf;
    var next := ExecuteKeeps(p, user, tenant, cap, ins, key, correlation, req, run, status, invoked, now);
    var (after, r) := CapabilityTables.Execute(p, user, tenant, cap, ins, key, correlation, req, run, status, invoked, now);
    q := after;
    ReceiptKeepsSeen(p, q, InvocationKey(tenant, user, key), InvocationHash(ins, cap, req), r, next);
  }

  // ----------------------------------------------- answers of other capabilities

  ghost predicate NothingNewer(p: Platform, key: ResourceKey, revision: int) {
    && (forall c :: c in p.inbox && c.tenant == key.tenant && p.inbox[c].body.resource.id == key.id ==> p.inbox[c].body.resource.revision <= revision)
    && (forall i :: i in p.receipts && i.tenant == key.tenant && p.receipts[i].response.capability.PaymentV1? && p.receipts[i].response.resource.Some? && p.receipts[i].response.resource.value.id == key.id
          ==> p.receipts[i].response.resource.value.revision <= revision)
  }

  // The upsert of resources that are not payments looks at the owner of the row only.
  // It does no harm to a payment of somebody else, to one it leaves as it is, and to one
  // that was never announced, as long as it stays a payment and nothing newer came in.
  ghost predicate Harmless(p: Platform, tenant: Id, ins: Id, next: Snapshot) {
    var key := ResourceKey(tenant, next.id);
    key in p.resources && p.resources[key].capability.PaymentV1? && p.resources[key].installation == ins ==>
      var row := p.resources[key];
      next == row.data || (row.statusRevision == 0 && PaymentData(next) && NothingNewer(p, key, next.revision))
  }

  ghost predicate Spares(p: Platform, tenant: Id, ins: Id, cap: Capability, answer: Option<Snapshot>) {
    cap.PaymentV1? || answer.None? || Harmless(p, tenant, ins, answer.value)
  }

  // The tables after such an upsert of a payment row.
  ghost predicate Overwrites(p: Platform, q: Platform, key: ResourceKey, next: Snapshot, e: Envelope, at: InvocationKey) {
    && key in p.resources && q.resources == p.resources[key := p.resources[key].(data := next)] && q.inbox == p.inbox
    && e.id !in p.events && e.kind.CapabilityInvoked? && q.events == p.events[e.id := NewRow(e)]
    && at !in p.receipts && at in q.receipts && q.receipts == p.receipts[at := q.receipts[at]] && !q.receipts[at].response.capability.PaymentV1?
  }

  lemma UnannouncedKeepsHistory(p: Platform, q: Platform, key: ResourceKey, row: Row)
    requires History(p) && Rewrote(p, q, key, row) && key in p.resources && p.resources[key].capability.PaymentV1? && row.capability.PaymentV1?
    requires p.resources[key].statusRevision == 0 && row.statusRevision == 0
    ensures History(q)
  {
    forall k, n | k in q.resources && q.resources[k].capability.PaymentV1? && 1 <= n <= q.resources[k].statusRevision
      ensures Told(q.events, k, n)
    {
      assert Told(p.events, k, n);
    }
  }

  lemma HarmlessKeepsHistory(p: Platform, q: Platform, key: ResourceKey, next: Snapshot, e: Envelope, at: InvocationKey)
    requires History(p) && Overwrites(p, q, key, next, e, at) && p.resources[key].capability.PaymentV1?
    requires next == p.resources[key].data || p.resources[key].statusRevision == 0
    ensures History(q)
  {
    hide Sound, Ordered, Complete;
    var mid := p.(resources := q.resources);
    if next == p.resources[key].data {
      assert mid.resources == p.resources;
    } else {
      UnannouncedKeepsHistory(p, mid, key, p.resources[key].(data := next));
    }
    OtherEventKeepsHistory(mid, mid.(events := q.events), e);
  }

  lemma HarmlessKeepsSeen(p: Platform, q: Platform, key: ResourceKey, next: Snapshot, e: Envelope, at: InvocationKey)
    requires SeenInv(p) && Overwrites(p, q, key, next, e, at) && key.id == next.id && p.resources[key].capability.PaymentV1?
    requires Harmless(p, key.tenant, p.resources[key].installation, next)
    ensures SeenInv(q)
  {
    hide PaymentData, Seen;
    RowsSeenKept(p, q, key);
  }

  lemma HarmlessStaysTruthful(p: Platform, q: Platform, key: ResourceKey, next: Snapshot, e: Envelope, at: InvocationKey)
    requires Truthful(p) && Overwrites(p, q, key, next, e, at) && key.id == next.id && p.resources[key].capability.PaymentV1?
    requires Harmless(p, key.tenant, p.resources[key].installation, next)
    ensures Truthful(q)
  {
    hide History, PaymentData, SeenInv;
    HarmlessKeepsHistory(p, q, key, next, e, at);
    HarmlessKeepsSeen(p, q, key, next, e, at);
  }

  // What has been announced pins the money and the status, what has come in the revision.
  lemma AnnouncedPins(p: Platform, q: Platform, key: ResourceKey, next: Snapshot, e: Envelope, at: InvocationKey)
    requires History(p) && History(q) && Overwrites(p, q, key, next, e, at) && key.id == next.id && p.resources[key].capability.PaymentV1? && p.resources[key].statusRevision >= 1
    ensures SameMoney(next, p.resources[key].data) && next.status == p.resources[key].data.status
  {
    hide Ordered, DecodesPayment;
    var row := p.resources[key];
    assert Told(p.events, key, row.statusRevision);
    var f :| f in p.events && Marks(p.events[f].envelope, key, row.statusRevision);
    assert f in q.events && q.events[f] == p.events[f];
    assert Tells(p.events[f].envelope.payload.status, row);
    assert Tells(q.events[f].envelope.payload.status, row.(data := next));
  }

  lemma SeenIsReached(p: Platform, key: ResourceKey, r: Snapshot)
    requires SeenInv(p) && Seen(p, key, r) && r.id == key.id
    ensures key in p.resources && r.revision <= p.resources[key].data.revision
  {
    hide RowsSeen;
  }

  lemma SeenBefore(p: Platform, q: Platform, key: ResourceKey, next: Snapshot, e: Envelope, at: InvocationKey, r: Snapshot)
    requires Overwrites(p, q, key, next, e, at)
    ensures Seen(q, key, r) <==> Seen(p, key, r)
  {
    if Seen(p, key, r) {
      SeenKept(p, q, key, r);
    } else if i :| ByInvocation(q, i, key, r) {
      assert ByInvocation(p, i, key, r);
    } else if c :| ByCallback(q, c, key, r) {
      assert ByCallback(p, c, key, r);
    }
  }

  lemma SeenPins(p: Platform, q: Platform, key: ResourceKey, next: Snapshot, e: Envelope, at: InvocationKey)
    requires SeenInv(p) && SeenInv(q) && Overwrites(p, q, key, next, e, at) && key.id == next.id && p.resources[key].data.id == key.id
    requires p.resources[key].capability.PaymentV1? && p.resources[key].statusRevision >= 1
    ensures next.revision == p.resources[key].data.revision
  {
    hide Seen, ReceiptsReached, CallbacksReached;
    SeenBefore(p, q, key, next, e, at, next);
    SeenBefore(p, q, key, next, e, at, p.resources[key].data);
    assert q.resources[key].data == next;
    SeenIsReached(p, key, next);
    SeenIsReached(q, key, p.resources[key].data);
  }

  lemma TruthfulWasHarmless(p: Platform, q: Platform, key: ResourceKey, next: Snapshot, e: Envelope, at: InvocationKey)
    requires Truthful(p) && Truthful(q) && Overwrites(p, q, key, next, e, at) && key.id == next.id && p.resources[key].capability.PaymentV1?
    ensures Harmless(p, key.tenant, p.resources[key].installation, next)
  {
    hide History, PaymentData, Seen, RowsSeen;
    if p.resources[key].statusRevision >= 1 {
      hide SeenInv;
      AnnouncedPins(p, q, key, next, e, at);
      SeenPins(p, q, key, next, e, at);
    }
  }

  lemma ExecuteOverwrites(p: Platform, user: Id, tenant: Id, cap: Capability, ins: Id, key: string, correlation: string,
                          req: Request, run: Option<Snapshot> -> Result<Answer>, status: Id, invoked: Id, now: int, q: Platform, r: Result<Response>, next: Snapshot)
    requires (q, r) == CapabilityTables.Execute(p, user, tenant, cap, ins, key, correlation, req, run, status, invoked, now)
    requires r.Ok? && InvocationKey(tenant, user, key) !in p.receipts && AnswerOf(p, tenant, ins, cap, req, run) == Some(next) && !cap.PaymentV1?
    requires ResourceKey(tenant, next.id) in p.resources
    ensures var row := p.resources[ResourceKey(tenant, next.id)];
            Overwrites(p, q, ResourceKey(tenant, next.id), if row.installation == ins then next else row.data, NewEvent(invoked, CapabilityInvoked, now, tenant, user, ins, correlation, Details("capability,operation")), InvocationKey(tenant, user, key))
  {
    hide SavePayment, NewRow;
  }

  // The exact condition for any invocation: it keeps the tables truthful if and only if
  // it is refused or was recorded before, is answered a payment of its own capability or
  // no resource, or its answer is harmless.
  lemma ExecuteStaysTruthfulExactlyWhen(p: Platform, user: Id, tenant: Id, cap: Capability, ins: Id, key: string, correlation: string,
                                        req: Request, run: Option<Snapshot> -> Result<Answer>, status: Id, invoked: Id, now: int, q: Platform, r: Result<Response>)
    requires Truthful(p) && (q, r) == CapabilityTables.Execute(p, user, tenant, cap, ins, key, correlation, req, run, status, invoked, now)
    ensures Truthful(q) <==> InvocationKey(tenant, user, key) in p.receipts || r.Err? || Spares(p, tenant, ins, cap, AnswerOf(p, tenant, ins, cap, req, run))
  {
    hide CapabilityTables.Execute, History, SeenInv, SoundRow, Overwrites, NothingNewer, AnswerOf, PaymentData;
    var a := AnswerOf(p, tenant, ins, cap, req, run);
    if a.None? || Apart(p, tenant, cap, a.value) {
      var same := ExecuteStaysTruthful(p, user, tenant, cap, ins, key, correlation, req, run, status, invoked, now);
    } else if InvocationKey(tenant, user, key) in p.receipts || r.Err? {
      RefusedIsNothing(p, user, tenant, cap, ins, key, correlation, req, run, status, invoked, now);
    } else {
      var k, next, e := ResourceKey(tenant, a.value.id), a.value, NewEvent(invoked, CapabilityInvoked, now, tenant, user, ins, correlation, Details("capability,operation"));
      ExecuteOverwrites(p, user, tenant, cap, ins, key, correlation, req, run, status, invoked, now, q, r, next);
      if p.resources[k].installation != ins {
        HarmlessStaysTruthful(p, q, k, p.resources[k].data, e, InvocationKey(tenant, user, key));
      } else if Harmless(p, tenant, ins, next) {
        HarmlessStaysTruthful(p, q, k, next, e, InvocationKey(tenant, user, key));
      } else if Truthful(q) {
        TruthfulWasHarmless(p, q, k, next, e, InvocationKey(tenant, user, key));
      }
    }
  }

  lemma RefusedIsNothing(p: Platform, user: Id, tenant: Id, cap: Capability, ins: Id, key: string, correlation: string,
                         req: Request, run: Option<Snapshot> -> Result<Answer>, status: Id, invoked: Id, now: int)
    ensures var (q, r) := CapabilityTables.Execute(p, user, tenant, cap, ins, key, correlation, req, run, status, invoked, now);
            InvocationKey(tenant, user, key) in p.receipts || r.Err? ==> q == p
  {
    hide Store, NewRow;
  }
}
