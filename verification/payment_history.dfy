// savePayment and the event history it writes: per payment, revisions 1..n with
// strictly rising rank, one event each, all about the same money.
module PaymentHistory {
  import opened Base
  import opened Events
  import opened RemoteApp
  import opened CapabilityTables

  ghost predicate PaymentData(r: Snapshot) {
    Token(r.id) && Token(r.reference) && ValidMoney(r.amountMinor, r.currency) && Rank(r.status) != 0
  }

  ghost predicate ValidPayment(r: Snapshot) {
    PaymentData(r) && r.revision >= 0
  }

  // What every stored payment is, whatever was sent.
  ghost predicate SoundRow(row: Row) {
    row.capability.PaymentV1? && Token(row.installation) && PaymentData(row.data) && 0 <= row.statusRevision <= Rank(row.data.status)
  }

  // What it is besides as long as the app numbers its answers.
  ghost predicate GoodRow(row: Row) {
    SoundRow(row) && row.data.revision >= 0 && (row.statusRevision == 0 ==> row.data.revision == 0)
  }

  // `next` belongs to the same history as the row: same owner and money, and no
  // later revision with a lower rank, no equal revision with another status.
  ghost predicate Continues(prior: Option<Row>, ins: Id, next: Snapshot) {
    && Token(ins) && ValidPayment(next)
    && (prior.Some? ==>
        && GoodRow(prior.value) && prior.value.installation == ins && SameIdentity(prior.value.data, next)
        && (next.revision >= prior.value.data.revision ==> Rank(next.status) >= Rank(prior.value.data.status))
        && (next.revision == prior.value.data.revision ==> next.status == prior.value.data.status))
  }

  // Whatever the fold accepts: the row keeps its owner and money, carries the snapshot
  // with the higher revision, and counts exactly its changes of status.
  lemma FoldOutcome(prior: Option<Row>, ins: Id, next: Snapshot)
    requires prior.Some? ==> prior.value.data.id == next.id && (prior.value.capability.PaymentV1? ==> SoundRow(prior.value))
    requires Fold(prior, ins, next).Ok?
    ensures var (row, outcome) := Fold(prior, ins, next).value;
            && SoundRow(row) && row.installation == ins && SameIdentity(row.data, next)
            && row.data == (if prior.Some? && next.revision < prior.value.data.revision then prior.value.data else next)
            && (outcome.Stale? <==> prior.Some? && next.revision < prior.value.data.revision)
            && (outcome.Applied? ==> row.statusRevision == (if prior.Some? then prior.value.statusRevision else 0) + 1)
            && (!outcome.Applied? ==> prior.Some? && row.statusRevision == prior.value.statusRevision && row.statusRevision + (if outcome.Stale? then 1 else 0) >= 1 && row.data.status == prior.value.data.status)
            && (prior.Some? ==> Rank(prior.value.data.status) <= Rank(row.data.status))
            && (outcome.Applied? && prior.Some? && prior.value.statusRevision > 0 ==> Rank(prior.value.data.status) < Rank(row.data.status))
            && (prior.Some? ==> prior.value.capability.PaymentV1? && prior.value.installation == ins && prior.value.data.revision <= row.data.revision && SameIdentity(prior.value.data, row.data))
  {
  }

  // On one history the fold never answers Conflict or Invalid, and announces exactly
  // the changes of status.
  lemma FoldAccepts(prior: Option<Row>, ins: Id, next: Snapshot)
    requires Continues(prior, ins, next)
    ensures Fold(prior, ins, next).Ok?
    ensures var (row, outcome) := Fold(prior, ins, next).value;
            && GoodRow(row) && row.installation == ins && SameIdentity(row.data, next)
            && row.data == (if prior.Some? && next.revision < prior.value.data.revision then prior.value.data else next)
            && (outcome.Stale? <==> prior.Some? && next.revision < prior.value.data.revision)
            && (outcome.Applied? <==> !outcome.Stale? && (prior.None? || prior.value.data.status != next.status || prior.value.statusRevision == 0))
            && row.statusRevision == (if prior.Some? then prior.value.statusRevision else 0) + (if outcome.Applied? then 1 else 0)
            && (prior.Some? ==> Rank(prior.value.data.status) <= Rank(row.data.status))
            && (outcome.Applied? && prior.Some? && prior.value.statusRevision > 0 ==> Rank(prior.value.data.status) < Rank(row.data.status))
  {
  }

  // And exactly such snapshots are accepted: of the same owner and money, not lower
  // in rank unless older, not different at the same revision.
  lemma FoldAcceptsExactly(row: Row, ins: Id, next: Snapshot)
    requires GoodRow(row) && Token(ins) && ValidPayment(next) && next.id == row.data.id
    ensures Fold(Some(row), ins, next).Ok? <==> Continues(Some(row), ins, next)
    ensures Fold(Some(row), ins, next).Err? ==> Fold(Some(row), ins, next).fault == Conflict
  {
  }

  // Payments from before revisions existed all carry revision 0. When platform and app
  // disagree about one, the app's own state is a conflict.
  lemma UnnumberedDisagreementConflicts()
    ensures var stored := Row("ins", PaymentV1, Snapshot("pay", "ref", Authorized, 100, "IDR", 0), 0);
            && GoodRow(stored)
            && Fold(Some(stored), "ins", Snapshot("pay", "ref", Captured, 100, "IDR", 0)) == Err(Conflict)
            && Fold(Some(stored), "ins", Snapshot("pay", "ref", Refunded, 100, "IDR", 1)).Ok?
  {
    assert Token("pay") && Token("ref") && Token("ins");
  }

  // For every such disagreement, `legacy` being what the app had then: a later state
  // of the app's payment, `next`, is accepted again exactly from the app's next change
  // of status on, and not before the app has caught up with what is stored.
  lemma DisagreementHealsExactlyWhen(stored: Row, legacy: Snapshot, next: Snapshot)
    requires GoodRow(stored) && stored.data.revision == 0 && SameIdentity(stored.data, legacy) && legacy.revision == 0 && legacy.status != stored.data.status
    requires ValidPayment(legacy) && ValidPayment(next) && SameIdentity(legacy, next) && Rank(next.status) == Rank(legacy.status) + next.revision
    ensures Fold(Some(stored), stored.installation, next).Ok? <==> next.revision >= 1 && Rank(legacy.status) + next.revision >= Rank(stored.data.status)
    ensures Fold(Some(stored), stored.installation, next).Ok? ==> Fold(Some(stored), stored.installation, next).value.0.data == next
  {
    FoldAcceptsExactly(stored, stored.installation, next);
    if next.revision == 0 {
      SameRankSameStatus(next.status, legacy.status);
    }
  }

  lemma SameRankSameStatus(a: Status, b: Status)
    requires Rank(a) == Rank(b) != 0
    ensures a == b
  {
  }

  // ------------------------------------------------------------ event history

  ghost predicate About(e: Envelope, key: ResourceKey) {
    PaymentEnvelope(e) && e.tenant == key.tenant && e.payload.status.resource == key.id
  }

  ghost predicate Marks(e: Envelope, key: ResourceKey, n: int) {
    About(e, key) && e.payload.status.revision == n
  }

  ghost predicate Tells(st: StatusEvent, row: Row) {
    && st == StatusOf(row.installation, row.data.(status := st.status), st.revision)
    && 1 <= st.revision <= row.statusRevision
    && Rank(st.status) <= Rank(row.data.status)
    && (st.revision == row.statusRevision ==> st.status == row.data.status)
  }

  // Every payment event is an announcement of a stored payment.
  ghost predicate Sound(rows: map<ResourceKey, Row>, events: map<Id, OutboxRow>) {
    forall e :: e in events ==>
      && events[e].envelope.id == e && events[e].tenant == events[e].envelope.tenant
      && (events[e].envelope.kind.PaymentStatusChanged? ==>
          && DecodesPayment(events[e].envelope)
          && (var key := ResourceKey(events[e].tenant, events[e].envelope.payload.status.resource);
              key in rows && rows[key].capability.PaymentV1? && Tells(events[e].envelope.payload.status, rows[key])))
  }

  // One event per revision, and rank rises with the revision.
  ghost predicate Ordered(events: map<Id, OutboxRow>) {
    forall e, f, key ::
      e in events && f in events && About(events[e].envelope, key) && About(events[f].envelope, key) ==>
        && (events[e].envelope.payload.status.revision == events[f].envelope.payload.status.revision ==> e == f)
        && (events[e].envelope.payload.status.revision < events[f].envelope.payload.status.revision
            ==> Rank(events[e].envelope.payload.status.status) < Rank(events[f].envelope.payload.status.status))
  }

  ghost predicate Told(events: map<Id, OutboxRow>, key: ResourceKey, n: int) {
    exists e :: e in events && Marks(events[e].envelope, key, n)
  }

  // No revision is skipped.
  ghost predicate Complete(rows: map<ResourceKey, Row>, events: map<Id, OutboxRow>) {
    forall key, n :: key in rows && rows[key].capability.PaymentV1? && 1 <= n <= rows[key].statusRevision ==> Told(events, key, n)
  }

  ghost predicate History(p: Platform) {
    Sound(p.resources, p.events) && Ordered(p.events) && Complete(p.resources, p.events)
  }

  ghost predicate SoundRows(p: Platform) {
    forall key :: key in p.resources && p.resources[key].capability.PaymentV1? ==> p.resources[key].data.id == key.id && SoundRow(p.resources[key])
  }

  ghost predicate GoodRows(p: Platform) {
    forall key :: key in p.resources ==> p.resources[key].data.id == key.id && (p.resources[key].capability.PaymentV1? ==> GoodRow(p.resources[key]))
  }

  lemma GoodRowsAreSound(p: Platform)
    requires GoodRows(p)
    ensures SoundRows(p)
  {
    hide SoundRow;
  }

  // The stored payment of this installation is at least as new as `r`.
  ghost predicate Reaches(p: Platform, tenant: Id, ins: Id, r: Snapshot) {
    var key := ResourceKey(tenant, r.id);
    && key in p.resources && p.resources[key].capability.PaymentV1? && p.resources[key].installation == ins
    && r.revision <= p.resources[key].data.revision
  }

  // The two ways savePayment changes the tables.
  ghost predicate Rewrote(p: Platform, q: Platform, key: ResourceKey, row: Row) {
    q == p.(resources := p.resources[key := row])
  }

  ghost predicate Announced(p: Platform, q: Platform, key: ResourceKey, row: Row, e: Envelope, now: int) {
    && e.id !in p.events && Marks(e, key, row.statusRevision) && e.subject == key.id && e.payload.status == StatusOf(row.installation, row.data, row.statusRevision)
    && q == p.(resources := p.resources[key := row], events := p.events[e.id := NewRow(e)])
  }

  lemma RewriteKeepsHistory(p: Platform, q: Platform, key: ResourceKey, row: Row)
    requires History(p) && SoundRow(row) && Rewrote(p, q, key, row) && key in p.resources
    requires var o := p.resources[key]; SoundRow(o) && o.installation == row.installation && SameIdentity(o.data, row.data) && o.statusRevision == row.statusRevision && o.data.status == row.data.status
    ensures History(q)
  {
    forall k, n | k in q.resources && q.resources[k].capability.PaymentV1? && 1 <= n <= q.resources[k].statusRevision
      ensures Told(q.events, k, n)
    {
      assert Told(p.events, k, n);
    }
  }

  lemma AnnounceKeepsSound(p: Platform, q: Platform, key: ResourceKey, row: Row, e: Envelope, now: int)
    requires Sound(p.resources, p.events) && SoundRow(row) && Announced(p, q, key, row, e, now) && row.statusRevision >= 1
    requires key in p.resources ==> var o := p.resources[key]; SoundRow(o) && o.installation == row.installation && SameIdentity(o.data, row.data) && o.statusRevision + 1 == row.statusRevision && Rank(o.data.status) <= Rank(row.data.status)
    ensures Sound(q.resources, q.events)
  {
  }

  lemma AnnounceKeepsOrder(p: Platform, q: Platform, key: ResourceKey, row: Row, e: Envelope, now: int)
    requires Sound(p.resources, p.events) && Ordered(p.events) && Announced(p, q, key, row, e, now)
    requires key in p.resources ==> p.resources[key].statusRevision < row.statusRevision && (p.resources[key].statusRevision > 0 ==> Rank(p.resources[key].data.status) < Rank(row.data.status))
    ensures Ordered(q.events)
  {
    forall f | f in p.events && About(p.events[f].envelope, key)
      ensures p.events[f].envelope.payload.status.revision < row.statusRevision && Rank(p.events[f].envelope.payload.status.status) < Rank(row.data.status)
    {
    }
  }

  lemma AnnounceKeepsComplete(p: Platform, q: Platform, key: ResourceKey, row: Row, e: Envelope, now: int)
    requires Complete(p.resources, p.events) && Announced(p, q, key, row, e, now)
    requires row.statusRevision == (if key in p.resources then p.resources[key].statusRevision else 0) + 1
    requires key in p.resources ==> p.resources[key].capability.PaymentV1?
    ensures Complete(q.resources, q.events)
  {
    forall k, n | k in q.resources && q.resources[k].capability.PaymentV1? && 1 <= n <= q.resources[k].statusRevision
      ensures Told(q.events, k, n)
    {
      if k == key && n == row.statusRevision {
        assert Marks(q.events[e.id].envelope, k, n);
      } else {
        assert Told(p.events, k, n);
        var f :| f in p.events && Marks(p.events[f].envelope, k, n);
        assert f in q.events && Marks(q.events[f].envelope, k, n);
      }
    }
  }

  lemma AnnounceKeepsHistory(p: Platform, q: Platform, key: ResourceKey, row: Row, e: Envelope, now: int)
    requires History(p) && SoundRow(row) && Announced(p, q, key, row, e, now)
    requires row.statusRevision == (if key in p.resources then p.resources[key].statusRevision else 0) + 1
    requires key in p.resources ==>
               var o := p.resources[key];
               SoundRow(o) && o.installation == row.installation && SameIdentity(o.data, row.data) && Rank(o.data.status) <= Rank(row.data.status)
               && (o.statusRevision > 0 ==> Rank(o.data.status) < Rank(row.data.status))
    ensures History(q)
  {
    hide Sound, Ordered, Complete, ValidPayment;
    AnnounceKeepsSound(p, q, key, row, e, now);
    AnnounceKeepsOrder(p, q, key, row, e, now);
    AnnounceKeepsComplete(p, q, key, row, e, now);
  }

  // How one payment row may move on: same owner and money, never backwards.
  ghost predicate Advances(a: Row, b: Row) {
    && a.installation == b.installation && b.capability.PaymentV1? && SameIdentity(a.data, b.data)
    && a.data.revision <= b.data.revision && a.statusRevision <= b.statusRevision && Rank(a.data.status) <= Rank(b.data.status)
  }

  ghost predicate RowsAdvance(p: Platform, q: Platform) {
    && (forall key :: key in p.resources ==> key in q.resources && (p.resources[key].capability.PaymentV1? ==> Advances(p.resources[key], q.resources[key])))
    && (forall e :: e in p.events ==> e in q.events && q.events[e] == p.events[e])
    && (forall e :: e in q.events && e !in p.events ==> !q.events[e].published)
  }

  // At most the row at `key` differs, and it now carries `next` or what it had.
  ghost predicate Touched(p: Platform, q: Platform, key: ResourceKey, ins: Id, cap: Capability, next: Snapshot) {
    && key in q.resources && q.resources == p.resources[key := q.resources[key]]
    && (key in p.resources ==> q.resources[key].installation == p.resources[key].installation && q.resources[key].capability == p.resources[key].capability)
    && (key !in p.resources ==> q.resources[key].installation == ins && q.resources[key].capability == cap)
    && (q.resources[key].data == next || (key in p.resources && q.resources[key] == p.resources[key]))
  }

  lemma RowStepKeeps(p: Platform, q: Platform, key: ResourceKey, row: Row, ins: Id, next: Snapshot)
    requires SoundRows(p) && SoundRow(row) && row.installation == ins && row.data.id == key.id
    requires q.resources == p.resources[key := row] && (forall e :: e in p.events ==> e in q.events && q.events[e] == p.events[e])
    requires forall e :: e in q.events && e !in p.events ==> !q.events[e].published
    requires key in p.resources ==> p.resources[key].capability.PaymentV1? && Advances(p.resources[key], row)
    requires row.data == next || (key in p.resources && p.resources[key] == row)
    ensures SoundRows(q) && RowsAdvance(p, q) && Touched(p, q, key, ins, PaymentV1, next)
    ensures GoodRows(p) && GoodRow(row) ==> GoodRows(q)
  {
    hide PaymentData;
  }

  // savePayment, whatever the snapshot: the event history stays exact and the row
  // carries the snapshot with the higher revision. On one history it fails only when
  // the new event id is taken.
  lemma SavePaymentKeeps(p: Platform, tenant: Id, ins: Id, actor: Id, correlation: string, next: Snapshot, event: Id, now: int)
    requires History(p) && SoundRows(p)
    ensures SavePayment(p, tenant, ins, actor, correlation, next, event, now).Ok? ==>
              var q := SavePayment(p, tenant, ins, actor, correlation, next, event, now).value.0;
              var key := ResourceKey(tenant, next.id);
              && History(q) && SoundRows(q) && RowsAdvance(p, q) && q.inbox == p.inbox && q.receipts == p.receipts
              && Touched(p, q, key, ins, PaymentV1, next) && q.resources[key].installation == ins && q.resources[key].capability.PaymentV1? && SameIdentity(q.resources[key].data, next)
              && q.resources[key].data == (if key in p.resources && next.revision < p.resources[key].data.revision then p.resources[key].data else next)
              && SavePayment(p, tenant, ins, actor, correlation, next, event, now).value.1 == q.resources[key].data
    ensures GoodRows(p) && Continues(Find(p.resources, ResourceKey(tenant, next.id)), ins, next) ==>
              match SavePayment(p, tenant, ins, actor, correlation, next, event, now)
              case Ok((q, _, _)) => GoodRows(q)
              case Err(f) => event in p.events && f == Unavailable
  {
    hide History, SoundRows, GoodRows, RowsAdvance, Touched, Fold, ValidPayment, PaymentData, GoodRow, Continues;
    var key := ResourceKey(tenant, next.id);
    var prior := Find(p.resources, key);
    if Continues(prior, ins, next) {
      FoldAccepts(prior, ins, next);
    }
    if SavePayment(p, tenant, ins, actor, correlation, next, event, now).Ok? {
      SavedKeeps(p, tenant, ins, actor, correlation, next, event, now);
    }
  }

  lemma PriorIsSound(p: Platform, key: ResourceKey)
    requires SoundRows(p)
    ensures key in p.resources && p.resources[key].capability.PaymentV1? ==> p.resources[key].data.id == key.id && SoundRow(p.resources[key])
  {
    hide SoundRow;
  }

  lemma FoldIsOfPayments(prior: Option<Row>, ins: Id, next: Snapshot)
    requires Fold(prior, ins, next).Ok?
    ensures prior.Some? ==> prior.value.capability.PaymentV1?
  {
  }

  lemma SavedKeeps(p: Platform, tenant: Id, ins: Id, actor: Id, correlation: string, next: Snapshot, event: Id, now: int)
    requires History(p) && SoundRows(p) && SavePayment(p, tenant, ins, actor, correlation, next, event, now).Ok?
    ensures var q := SavePayment(p, tenant, ins, actor, correlation, next, event, now).value.0;
            var key := ResourceKey(tenant, next.id);
            && History(q) && SoundRows(q) && RowsAdvance(p, q) && q.inbox == p.inbox && q.receipts == p.receipts
            && Touched(p, q, key, ins, PaymentV1, next) && q.resources[key].installation == ins && q.resources[key].capability.PaymentV1? && SameIdentity(q.resources[key].data, next)
            && q.resources[key].data == (if key in p.resources && next.revision < p.resources[key].data.revision then p.resources[key].data else next)
            && SavePayment(p, tenant, ins, actor, correlation, next, event, now).value.1 == q.resources[key].data
            && (GoodRows(p) && GoodRow(Fold(Find(p.resources, key), ins, next).value.0) ==> GoodRows(q))
  {
    hide History, SoundRows, GoodRows, RowsAdvance, Touched, Fold, PaymentData, GoodRow;
    var key := ResourceKey(tenant, next.id);
    var prior := Find(p.resources, key);
    FoldIsOfPayments(prior, ins, next);
    PriorIsSound(p, key);
    FoldOutcome(prior, ins, next);
    var (row, outcome) := Fold(prior, ins, next).value;
    var q := SavePayment(p, tenant, ins, actor, correlation, next, event, now).value.0;
    if outcome.Applied? {
      AnnounceKeepsHistory(p, q, key, row, NewEvent(event, PaymentStatusChanged, now, tenant, actor, next.id, correlation, Payment(StatusOf(ins, next, row.statusRevision))), now);
    } else if outcome.Stale? {
      assert q.resources == p.resources[key := row];
    } else {
      RewriteKeepsHistory(p, q, key, row);
    }
    RowStepKeeps(p, q, key, row, ins, next);
  }

  lemma OtherEventKeepsHistory(p: Platform, q: Platform, e: Envelope)
    requires History(p) && e.id !in p.events && !e.kind.PaymentStatusChanged?
    requires q.resources == p.resources && q.events == p.events[e.id := NewRow(e)]
    ensures History(q)
  {
    hide ValidStatus, Tells;
    forall k, n | k in q.resources && q.resources[k].capability.PaymentV1? && 1 <= n <= q.resources[k].statusRevision
      ensures Told(q.events, k, n)
    {
      assert Told(p.events, k, n);
      var f :| f in p.events && Marks(p.events[f].envelope, k, n);
      assert f in q.events && Marks(q.events[f].envelope, k, n);
    }
  }

  lemma OtherRowKeepsHistory(p: Platform, q: Platform, key: ResourceKey, row: Row)
    requires History(p) && !row.capability.PaymentV1? && Rewrote(p, q, key, row)
    requires key in p.resources ==> !p.resources[key].capability.PaymentV1?
    ensures History(q)
  {
    forall k, n | k in q.resources && q.resources[k].capability.PaymentV1? && 1 <= n <= q.resources[k].statusRevision
      ensures Told(q.events, k, n)
    {
      assert Told(p.events, k, n);
    }
  }

  // A resource of another capability does not sit on a payment row.
  predicate Apart(p: Platform, tenant: Id, cap: Capability, next: Snapshot) {
    var key := ResourceKey(tenant, next.id);
    !cap.PaymentV1? && key in p.resources ==> !p.resources[key].capability.PaymentV1?
  }

  // What the runtime may hand back: a payment that continues the stored history,
  // or a non-payment that does not sit on a payment row.
  ghost predicate Fits(p: Platform, tenant: Id, ins: Id, cap: Capability, next: Snapshot) {
    Apart(p, tenant, cap, next) && (cap.PaymentV1? ==> Continues(Find(p.resources, ResourceKey(tenant, next.id)), ins, next))
  }

  lemma StoreOtherKeeps(p: Platform, q: Platform, key: ResourceKey, row: Row, ins: Id, cap: Capability, next: Snapshot)
    requires History(p) && SoundRows(p) && key.id == next.id && !cap.PaymentV1?
    requires key in p.resources ==> !p.resources[key].capability.PaymentV1?
    requires row == (if key in p.resources then p.resources[key].(data := next) else Row(ins, cap, next, 0))
    requires Rewrote(p, q, key, row)
    ensures History(q) && SoundRows(q) && RowsAdvance(p, q) && Touched(p, q, key, ins, cap, next) && (GoodRows(p) ==> GoodRows(q))
  {
    hide History, GoodRow, SoundRow;
    OtherRowKeepsHistory(p, q, key, row);
  }

  // What Store does to any resource: on one history it fails only when the new event
  // id is taken.
  lemma StoreKeeps(p: Platform, tenant: Id, ins: Id, cap: Capability, user: Id, correlation: string, resource: Option<Snapshot>, status: Id, now: int)
    requires History(p) && SoundRows(p) && (resource.Some? ==> Apart(p, tenant, cap, resource.value))
    ensures var r := Store(p, tenant, ins, cap, user, correlation, resource, status, now);
            && (r.Ok? ==> var q := r.value.0;
                          && History(q) && SoundRows(q) && RowsAdvance(p, q) && q.inbox == p.inbox && q.receipts == p.receipts
                          && (resource.None? ==> q == p && r.value.1.None?)
                          && (resource.Some? ==> Touched(p, q, ResourceKey(tenant, resource.value.id), ins, cap, resource.value))
                          && (resource.Some? && cap.PaymentV1? ==>
                                var key := ResourceKey(tenant, resource.value.id);
                                r.value.1 == Some(q.resources[key].data) && q.resources[key].installation == ins && q.resources[key].capability.PaymentV1? && q.resources[key].data.id == key.id))
            && (GoodRows(p) && (resource.Some? ==> Fits(p, tenant, ins, cap, resource.value)) ==> if r.Ok? then GoodRows(r.value.0) else r.fault == Unavailable)
  {
    hide SavePayment, History, GoodRow, SoundRow, Continues, GoodRows, SoundRows, RowsAdvance;
    var r := Store(p, tenant, ins, cap, user, correlation, resource, status, now);
    AdvancesSelf(p);
    if resource.Some? {
      var key := ResourceKey(tenant, resource.value.id);
      if cap.PaymentV1? {
        SavePaymentKeeps(p, tenant, ins, user, correlation, resource.value, status, now);
      } else if r.value.0 != p {
        StoreOtherKeeps(p, r.value.0, key, r.value.0.resources[key], ins, cap, resource.value);
      }
    }
  }

  lemma AdvancesSelf(p: Platform)
    ensures RowsAdvance(p, p)
  {
  }

  // A success that was not recorded before is recorded now, with the resource as
  // it is stored; anything else leaves the tables alone.
  ghost predicate Receipted(p: Platform, q: Platform, at: InvocationKey, hash: InvocationHash, r: Result<Response>, next: Option<Snapshot>) {
    if at in p.receipts || r.Err? then q == p
    else
      && q.receipts == p.receipts[at := Receipt(hash, r.value)] && r.value.capability == hash.capability
      && (next.None? ==> r.value.resource.None?)
      && (next.Some? && hash.capability.PaymentV1? ==>
            var key := ResourceKey(at.tenant, next.value.id);
            key in q.resources && r.value.resource == Some(q.resources[key].data))
  }

  // Recording that an invocation happened adds one event and one receipt.
  lemma InvokedKeeps(p: Platform, p1: Platform, q: Platform, e: Envelope)
    requires History(p1) && SoundRows(p1) && RowsAdvance(p, p1)
    requires e.id !in p1.events && !e.kind.PaymentStatusChanged?
    requires q.resources == p1.resources && q.inbox == p1.inbox && q.events == p1.events[e.id := NewRow(e)]
    ensures History(q) && SoundRows(q) && RowsAdvance(p, q) && (GoodRows(p1) ==> GoodRows(q))
  {
    hide Sound, Ordered, Complete, GoodRow, SoundRow;
    OtherEventKeepsHistory(p1, q, e);
  }

  // The answer `run` gives when it is asked.
  function AnswerOf(p: Platform, tenant: Id, ins: Id, cap: Capability, req: Request, run: Option<Snapshot> -> Result<Answer>): Option<Snapshot> {
    var c := Current(p, tenant, ins, cap, req.resource);
    if c.Ok? && run(c.value).Ok? then run(c.value).value.resource else None
  }

  // An invocation keeps the event history exact, whatever payment its runtime answers.
  // When the answer fits, it never meets Conflict past the receipt check.
  lemma ExecuteKeeps(p: Platform, user: Id, tenant: Id, cap: Capability, ins: Id, key: string, correlation: string,
                     req: Request, run: Option<Snapshot> -> Result<Answer>, status: Id, invoked: Id, now: int) returns (next: Option<Snapshot>)
    requires History(p) && SoundRows(p)
    requires var a := AnswerOf(p, tenant, ins, cap, req, run); a.Some? ==> Apart(p, tenant, cap, a.value)
    ensures var (q, r) := CapabilityTables.Execute(p, user, tenant, cap, ins, key, correlation, req, run, status, invoked, now);
            && History(q) && SoundRows(q) && RowsAdvance(p, q) && q.inbox == p.inbox
            && (next.None? ==> q.resources == p.resources)
            && (next.Some? ==> Touched(p, q, ResourceKey(tenant, next.value.id), ins, cap, next.value) && AnswerOf(p, tenant, ins, cap, req, run) == next)
            && (next.Some? && cap.PaymentV1? ==> var k := ResourceKey(tenant, next.value.id); q.resources[k].installation == ins && q.resources[k].capability.PaymentV1? && q.resources[k].data.id == k.id)
            && Receipted(p, q, InvocationKey(tenant, user, key), InvocationHash(ins, cap, req), r, next)
    ensures var a := AnswerOf(p, tenant, ins, cap, req, run);
            GoodRows(p) && (a.Some? ==> Fits(p, tenant, ins, cap, a.value)) ==>
              var (q, r) := CapabilityTables.Execute(p, user, tenant, cap, ins, key, correlation, req, run, status, invoked, now);
              && GoodRows(q)
              && (InvocationKey(tenant, user, key) !in p.receipts && r == Err(Conflict) ==> run(Current(p, tenant, ins, cap, req.resource).value) == Err(Conflict))
  {
    hide Store, History, GoodRows, SoundRows, Fits, Apart, RowsAdvance;
    next := None;
    var (q, r) := CapabilityTables.Execute(p, user, tenant, cap, ins, key, correlation, req, run, status, invoked, now);
    var c := Current(p, tenant, ins, cap, req.resource);
    AdvancesSelf(p);
    if InvocationKey(tenant, user, key) !in p.receipts && c.Ok? && run(c.value).Ok? {
      var answer := run(c.value).value;
      StoreKeeps(p, tenant, ins, cap, user, correlation, answer.resource, status, now);
      if r.Ok? {
        next := answer.resource;
        InvokedKeeps(p, Store(p, tenant, ins, cap, user, correlation, answer.resource, status, now).value.0, q, NewEvent(invoked, CapabilityInvoked, now, tenant, user, ins, correlation, Details("capability,operation")));
      }
    }
  }
}
