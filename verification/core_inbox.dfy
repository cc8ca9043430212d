// The consumer: deduplicating inbox, payment projection, per-type receipts and
// quarantined messages.
module CoreInbox {
  import opened Base
  import opened Events
  import opened CapabilityTables

  datatype InboxKey = InboxKey(tenant: Id, event: Id)
  datatype ReceiptKey = ReceiptKey(tenant: Id, kind: EventType)
  datatype LetterKey = LetterKey(tenant: Id, sequence: int)

  datatype Reason =
    | InvalidContract | TenantOrSubjectMismatch | EventIdCollision
    | InvalidPayment | IdentityConflict | RevisionConflict | StatusRegression

  datatype PaymentRow = PaymentRow(status: StatusEvent, event: Id)

  datatype Core = Core(
    inbox: map<InboxKey, Envelope>,
    receipts: map<ReceiptKey, nat>,
    payments: map<ResourceKey, PaymentRow>,
    letters: map<LetterKey, Reason>)

  datatype Outcome = Taken | Repeated | Quarantined

  // int64(sequence)
  function Int64(n: nat): int {
    var m := n % 0x1_0000_0000_0000_0000;
    if m < 0x8000_0000_0000_0000 then m else m - 0x1_0000_0000_0000_0000
  }

  predicate SamePayment(a: StatusEvent, b: StatusEvent) {
    a.installation == b.installation && a.reference == b.reference && a.amountMinor == b.amountMinor && a.currency == b.currency
  }

  datatype Verdict = Accept(row: PaymentRow) | Refuse(reason: Reason)

  // applyPayment on one row: the new row, or why the event is quarantined.
  function ApplyPayment(prior: Option<PaymentRow>, e: Envelope): Verdict {
    if !DecodesPayment(e) then Refuse(InvalidPayment)
    else
      var p := e.payload.status;
      if prior.None? then Accept(PaymentRow(p, e.id))
      else
        var q := prior.value.status;
        if !SamePayment(q, p) then Refuse(IdentityConflict)
        else if p.revision < q.revision then Accept(prior.value)
        else if p.revision == q.revision then
          if q.status != p.status then Refuse(RevisionConflict) else Accept(prior.value)
        else if Rank(p.status) < Rank(q.status) then Refuse(StatusRegression)
        else Accept(PaymentRow(q.(status := p.status, revision := p.revision), e.id))
  }

  // Dead letters keep the first reason recorded for a sequence number.
  function Bury(s: Core, tenant: Id, sequence: nat, reason: Reason): Core {
    var key := LetterKey(tenant, Int64(sequence));
    if key in s.letters then s else s.(letters := s.letters[key := reason])
  }

  function Count(s: Core, tenant: Id, kind: EventType): Core {
    var key := ReceiptKey(tenant, kind);
    s.(receipts := s.receipts[key := (if key in s.receipts then s.receipts[key] else 0) + 1])
  }

  function Apply(s: Core, tenant: Id, sequence: nat, m: Message): (Core, Outcome) {
    if !Decodes(m.raw) then (Bury(s, tenant, sequence, InvalidContract), Quarantined)
    else
      var e := m.raw.envelope;
      var key := InboxKey(tenant, e.id);
      if e.tenant != tenant || m.subject != Subject(e) then (Bury(s, tenant, sequence, TenantOrSubjectMismatch), Quarantined)
      else if key in s.inbox then
        if s.inbox[key] == e then (s, Repeated) else (Bury(s, tenant, sequence, EventIdCollision), Quarantined)
      else
        var taken := s.(inbox := s.inbox[key := e]);
        if !e.kind.PaymentStatusChanged? then (Count(taken, tenant, e.kind), Taken)
        else
          var at := ResourceKey(tenant, e.payload.status.resource);
          match ApplyPayment(Find(s.payments, at), e)
          case Refuse(reason) => (Bury(s, tenant, sequence, reason), Quarantined)
          case Accept(row) => (Count(taken.(payments := s.payments[at := row]), tenant, e.kind), Taken)
  }
}
