// The stored snapshot is the newest one ever seen: it was seen, and nothing that
// was seen is newer.
module PaymentSeen {
  import opened Base
  import opened RemoteApp
  import opened CapabilityTables
  import opened PaymentHistory

  ghost predicate ByCallback(p: Platform, c: CallbackKey, key: ResourceKey, r: Snapshot) {
    c in p.inbox && c.tenant == key.tenant && p.inbox[c].body.resource == r
  }

  ghost predicate ByInvocation(p: Platform, i: InvocationKey, key: ResourceKey, r: Snapshot) {
    i in p.receipts && i.tenant == key.tenant && p.receipts[i].response.capability.PaymentV1? && p.receipts[i].response.resource == Some(r)
  }

  // `r` came in with a callback or stands in an invocation receipt.
  ghost predicate Seen(p: Platform, key: ResourceKey, r: Snapshot) {
    (exists c :: ByCallback(p, c, key, r)) || (exists i :: ByInvocation(p, i, key, r))
  }

  ghost predicate ReceiptsReached(p: Platform) {
    forall i :: i in p.receipts && p.receipts[i].response.capability.PaymentV1? && p.receipts[i].response.resource.Some?
      ==> Reaches(p, i.tenant, p.receipts[i].hash.installation, p.receipts[i].response.resource.value)
  }

  ghost predicate CallbacksReached(p: Platform) {
    forall c :: c in p.inbox ==> Reaches(p, c.tenant, c.installation, p.inbox[c].body.resource)
  }

  ghost predicate RowsSeen(p: Platform) {
    forall key :: key in p.resources && p.resources[key].capability.PaymentV1? && p.resources[key].statusRevision >= 1 ==> Seen(p, key, p.resources[key].data)
  }

  ghost predicate SeenInv(p: Platform) {
    ReceiptsReached(p) && CallbacksReached(p) && RowsSeen(p)
  }

  ghost predicate Remembers(p: Platform, q: Platform) {
    && (forall c :: c in p.inbox ==> c in q.inbox && q.inbox[c] == p.inbox[c])
    && (forall i :: i in p.receipts ==> i in q.receipts && q.receipts[i] == p.receipts[i])
  }

  lemma SeenKept(p: Platform, q: Platform, key: ResourceKey, r: Snapshot)
    requires Seen(p, key, r) && Remembers(p, q)
    ensures Seen(q, key, r)
  {
    if c :| ByCallback(p, c, key, r) {
      assert ByCallback(q, c, key, r);
    } else {
      var i :| ByInvocation(p, i, key, r);
      assert ByInvocation(q, i, key, r);
    }
  }

  lemma RowsSeenKept(p: Platform, q: Platform, key: ResourceKey)
    requires RowsSeen(p) && Remembers(p, q) && key in q.resources && q.resources == p.resources[key := q.resources[key]]
    requires (key in p.resources && q.resources[key] == p.resources[key]) || !q.resources[key].capability.PaymentV1? || q.resources[key].statusRevision == 0 || Seen(q, key, q.resources[key].data)
    ensures RowsSeen(q)
  {
    forall k | k in q.resources && q.resources[k].capability.PaymentV1? && q.resources[k].statusRevision >= 1
      ensures Seen(q, k, q.resources[k].data)
    {
      if k in p.resources && q.resources[k] == p.resources[k] {
        SeenKept(p, q, k, q.resources[k].data);
      }
    }
  }

  // Taking a callback: the row now carries its body, or already had something newer.
  lemma CallbackKeepsSeen(p: Platform, p1: Platform, tenant: Id, ins: Id, delivery: Id, received: Received)
    requires SeenInv(p) && RowsAdvance(p, p1) && p1.inbox == p.inbox && p1.receipts == p.receipts
    requires Touched(p, p1, ResourceKey(tenant, received.body.resource.id), ins, PaymentV1, received.body.resource)
    requires Reaches(p1, tenant, ins, received.body.resource) && CallbackKey(tenant, ins, delivery) !in p.inbox
    ensures SeenInv(p1.(inbox := p1.inbox[CallbackKey(tenant, ins, delivery) := received]))
  {
    var key := ResourceKey(tenant, received.body.resource.id);
    var q := p1.(inbox := p1.inbox[CallbackKey(tenant, ins, delivery) := received]);
    assert ByCallback(q, CallbackKey(tenant, ins, delivery), key, received.body.resource);
    RowsSeenKept(p, q, key);
  }

  // Recording an invocation: the receipt carries the row as it is now.
  lemma ReceiptKeepsSeen(p: Platform, q: Platform, at: InvocationKey, hash: InvocationHash, r: Result<Response>, next: Option<Snapshot>)
    requires SeenInv(p) && RowsAdvance(p, q) && q.inbox == p.inbox && Receipted(p, q, at, hash, r, next)
    requires next.None? ==> q.resources == p.resources
    requires next.Some? ==> Touched(p, q, ResourceKey(at.tenant, next.value.id), hash.installation, hash.capability, next.value)
    requires next.Some? && hash.capability.PaymentV1? ==> var key := ResourceKey(at.tenant, next.value.id);
                                                          q.resources[key].installation == hash.installation && q.resources[key].capability.PaymentV1? && q.resources[key].data.id == key.id
    requires next.Some? && !hash.capability.PaymentV1? && ResourceKey(at.tenant, next.value.id) in p.resources ==> !p.resources[ResourceKey(at.tenant, next.value.id)].capability.PaymentV1?
    ensures SeenInv(q)
  {
    if q != p {
      if next.Some? {
        var key := ResourceKey(at.tenant, next.value.id);
        if hash.capability.PaymentV1? {
          assert ByInvocation(q, at, key, q.resources[key].data);
        }
        RowsSeenKept(p, q, key);
      } else {
        forall k | k in q.resources && q.resources[k].capability.PaymentV1? && q.resources[k].statusRevision >= 1
          ensures Seen(q, k, q.resources[k].data)
        {
          SeenKept(p, q, k, q.resources[k].data);
        }
      }
    }
  }
}
