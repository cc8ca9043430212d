// The consumer against any messages at all: forged, garbled, repeated, foreign.
module Consumer {
  import opened Base
  import opened Events
  import opened CapabilityTables
  import opened CoreInbox
  import opened PaymentHistory
  import opened PipelineDelivery

  datatype Arrival = Arrival(tenant: Id, sequence: nat, message: Message)

  function Feed(c: Core, arrivals: seq<Arrival>): Core {
    if arrivals == [] then c
    else
      var a := arrivals[|arrivals| - 1];
      CoreInbox.Apply(Feed(c, arrivals[..|arrivals| - 1]), a.tenant, a.sequence, a.message).0
  }

  // Every inbox entry is filed under its own tenant and id.
  ghost predicate Filed(c: Core) {
    forall k :: k in c.inbox ==> c.inbox[k].tenant == k.tenant && c.inbox[k].id == k.event && ValidEnvelope(c.inbox[k])
  }

  // A quarantined message leaves inbox, receipts and payments exactly as they
  // were; its reason is on record unless the sequence number already had one.
  lemma QuarantineLeavesNoTrace(c: Core, tenant: Id, sequence: nat, m: Message)
    ensures var (d, outcome) := CoreInbox.Apply(c, tenant, sequence, m);
            outcome.Quarantined? ==>
              && d.inbox == c.inbox && d.receipts == c.receipts && d.payments == c.payments
              && LetterKey(tenant, Int64(sequence)) in d.letters
              && (forall k :: k in c.letters ==> k in d.letters && d.letters[k] == c.letters[k])
              && d.letters.Keys == c.letters.Keys + {LetterKey(tenant, Int64(sequence))}
  {
    hide ValidEnvelope, Subject, CoreInbox.ApplyPayment, Int64;
  }

  // Exactly the first arrival of a well-formed message for this tenant that the
  // payment fold accepts is taken; it then stands in the inbox and is counted once.
  lemma TakenExactlyWhen(c: Core, tenant: Id, sequence: nat, m: Message)
    ensures var (d, outcome) := CoreInbox.Apply(c, tenant, sequence, m);
            outcome.Taken? <==>
              && Decodes(m.raw) && m.raw.envelope.tenant == tenant && m.subject == Subject(m.raw.envelope)
              && InboxKey(tenant, m.raw.envelope.id) !in c.inbox
              && (m.raw.envelope.kind.PaymentStatusChanged? ==>
                    CoreInbox.ApplyPayment(Find(c.payments, ResourceKey(tenant, m.raw.envelope.payload.status.resource)), m.raw.envelope).Accept?)
    ensures CoreInbox.Apply(c, tenant, sequence, m).1.Repeated? ==> CoreInbox.Apply(c, tenant, sequence, m).0 == c
    ensures var (d, outcome) := CoreInbox.Apply(c, tenant, sequence, m);
            outcome.Taken? ==>
              var e := m.raw.envelope;
              && d.inbox == c.inbox[InboxKey(tenant, e.id) := e] && d.letters == c.letters && d.receipts == Count(c, tenant, e.kind).receipts
              && (forall t, k :: Tally(d, t, k) == Tally(c, t, k) + (if t == tenant && k == e.kind then 1 else 0))
  {
    hide Subject, ValidStatus, CoreInbox.ApplyPayment, Token;
  }

  // ------------------------------------------------------------ why a message is buried

  // A well-formed message for this tenant on its own subject.
  predicate Addressed(tenant: Id, m: Message) {
    Decodes(m.raw) && m.raw.envelope.tenant == tenant && m.subject == "emisell.events." + tenant + "." + TypeName(m.raw.envelope.kind)
  }

  // A payment event not seen before, about a payment that has a row.
  predicate AboutKnown(c: Core, tenant: Id, m: Message) {
    && Addressed(tenant, m) && InboxKey(tenant, m.raw.envelope.id) !in c.inbox && m.raw.envelope.kind.PaymentStatusChanged?
    && m.raw.envelope.payload.Payment? && ResourceKey(tenant, m.raw.envelope.payload.status.resource) in c.payments
  }

  // The event against what the consumer knows of the payment.
  ghost predicate Against(c: Core, tenant: Id, m: Message, reason: Reason) {
    AboutKnown(c, tenant, m) &&
    (var p, q := m.raw.envelope.payload.status, c.payments[ResourceKey(tenant, m.raw.envelope.payload.status.resource)].status;
     var same := p.installation == q.installation && p.reference == q.reference && p.amountMinor == q.amountMinor && p.currency == q.currency;
     match reason
     case IdentityConflict => !same
     case RevisionConflict => same && p.revision == q.revision && p.status != q.status
     case StatusRegression => same && p.revision > q.revision && Rank(p.status) < Rank(q.status)
     case _ => false)
  }

  // Why this message cannot be taken, if there is a reason.
  ghost predicate Unacceptable(c: Core, tenant: Id, m: Message, reason: Reason) {
    match reason
    case InvalidContract => !Decodes(m.raw)
    case TenantOrSubjectMismatch => Decodes(m.raw) && !Addressed(tenant, m)
    case EventIdCollision => Addressed(tenant, m) && InboxKey(tenant, m.raw.envelope.id) in c.inbox && c.inbox[InboxKey(tenant, m.raw.envelope.id)] != m.raw.envelope
    case _ => Against(c, tenant, m, reason)
  }

  lemma PaymentRefusedExactlyWhen(prior: Option<PaymentRow>, e: Envelope)
    requires ValidEnvelope(e) && e.kind.PaymentStatusChanged?
    ensures e.payload.Payment?
    ensures prior.None? ==> CoreInbox.ApplyPayment(prior, e) == Accept(PaymentRow(e.payload.status, e.id))
    ensures prior.Some? ==>
              var p, q := e.payload.status, prior.value.status;
              var same := p.installation == q.installation && p.reference == q.reference && p.amountMinor == q.amountMinor && p.currency == q.currency;
              CoreInbox.ApplyPayment(prior, e) ==
              if !same then Refuse(IdentityConflict)
              else if p.revision == q.revision && p.status != q.status then Refuse(RevisionConflict)
              else if p.revision > q.revision && Rank(p.status) < Rank(q.status) then Refuse(StatusRegression)
              else if p.revision > q.revision then Accept(PaymentRow(q.(status := p.status, revision := p.revision), e.id))
              else Accept(prior.value)
  {
    hide Token, ValidMoney;
  }

  // Every message is taken, recognised or buried, and buried exactly for the one reason
  // there is; that is what its dead letter says, unless its number already had one.
  lemma BuriedExactlyWhen(c: Core, tenant: Id, sequence: nat, m: Message)
    ensures var (d, outcome) := CoreInbox.Apply(c, tenant, sequence, m);
            && (outcome.Quarantined? <==> exists reason :: Unacceptable(c, tenant, m, reason))
            && (outcome.Repeated? <==> Addressed(tenant, m) && InboxKey(tenant, m.raw.envelope.id) in c.inbox && c.inbox[InboxKey(tenant, m.raw.envelope.id)] == m.raw.envelope)
            && (forall reason :: Unacceptable(c, tenant, m, reason) && LetterKey(tenant, Int64(sequence)) !in c.letters ==> d.letters == c.letters[LetterKey(tenant, Int64(sequence)) := reason])
            && (!outcome.Quarantined? ==> d.letters == c.letters)
  {
    hide ValidEnvelope, CoreInbox.ApplyPayment, Int64;
    if Decodes(m.raw) && m.raw.envelope.kind.PaymentStatusChanged? {
      var e := m.raw.envelope;
      PaymentHasPayload(e);
      PaymentRefusedExactlyWhen(Find(c.payments, ResourceKey(tenant, e.payload.status.resource)), e);
    }
    assert Unacceptable(c, tenant, m, InvalidContract) || Unacceptable(c, tenant, m, TenantOrSubjectMismatch) || Unacceptable(c, tenant, m, EventIdCollision)
        || Unacceptable(c, tenant, m, IdentityConflict) || Unacceptable(c, tenant, m, RevisionConflict) || Unacceptable(c, tenant, m, StatusRegression) || !CoreInbox.Apply(c, tenant, sequence, m).1.Quarantined?;
  }

  lemma PaymentHasPayload(e: Envelope)
    requires ValidEnvelope(e) && e.kind.PaymentStatusChanged?
    ensures e.payload.Payment?
  {
  }

  // How one row of the projection may change.
  ghost predicate Forward(a: PaymentRow, b: PaymentRow) {
    && SamePayment(a.status, b.status) && a.status.resource == b.status.resource
    && (a == b || (a.status.revision < b.status.revision && Rank(a.status.status) <= Rank(b.status.status)))
  }

  ghost predicate PaymentsForward(a: Core, b: Core) {
    forall key :: key in a.payments ==> key in b.payments && Forward(a.payments[key], b.payments[key])
  }

  lemma FoldMovesForward(row: PaymentRow, e: Envelope)
    requires CoreInbox.ApplyPayment(Some(row), e).Accept?
    ensures Forward(row, CoreInbox.ApplyPayment(Some(row), e).row)
  {
    hide ValidStatus;
  }

  lemma ApplyMovesForward(c: Core, tenant: Id, sequence: nat, m: Message)
    ensures PaymentsForward(c, CoreInbox.Apply(c, tenant, sequence, m).0)
  {
    hide Subject, ValidEnvelope, CoreInbox.ApplyPayment, Int64;
    forall e: Envelope, key | key in c.payments && CoreInbox.ApplyPayment(Some(c.payments[key]), e).Accept?
      ensures Forward(c.payments[key], CoreInbox.ApplyPayment(Some(c.payments[key]), e).row)
    {
      FoldMovesForward(c.payments[key], e);
    }
  }

  lemma ApplyKeepsCount(c: Core, tenant: Id, sequence: nat, m: Message)
    requires Counted(c) && Filed(c)
    ensures Counted(CoreInbox.Apply(c, tenant, sequence, m).0) && Filed(CoreInbox.Apply(c, tenant, sequence, m).0)
  {
    hide Counted, ValidStatus, Subject, CoreInbox.Apply, CoreInbox.ApplyPayment, Count, Token;
    var (d, outcome) := CoreInbox.Apply(c, tenant, sequence, m);
    TakenExactlyWhen(c, tenant, sequence, m);
    QuarantineLeavesNoTrace(c, tenant, sequence, m);
    if outcome.Taken? {
      CountKeeps(c, d, InboxKey(tenant, m.raw.envelope.id), m.raw.envelope);
    } else {
      SameTablesSameCount(c, d);
    }
  }

  lemma SameTablesSameCount(c: Core, d: Core)
    requires Counted(c) && d.inbox == c.inbox && d.receipts == c.receipts
    ensures Counted(d)
  {
    forall tenant, kind
      ensures Tally(d, tenant, kind) == |Entries(d.inbox, tenant, kind)|
    {
      assert Tally(c, tenant, kind) == |Entries(c.inbox, tenant, kind)|;
    }
  }

  // A payment event that is accepted leaves its row the newest one taken.
  lemma AcceptedIsNewest(c: Core, e: Envelope, key: ResourceKey)
    requires Filed(c) && Folded(c) && DecodesPayment(e) && About(e, key) && InboxKey(e.tenant, e.id) !in c.inbox
    requires ApplyPayment(Find(c.payments, key), e).Accept?
    ensures Newest(c.inbox[InboxKey(e.tenant, e.id) := e], key, ApplyPayment(Find(c.payments, key), e).row)
  {
    hide Token, ValidMoney;
    var inbox := c.inbox[InboxKey(e.tenant, e.id) := e];
    if key in c.payments {
      assert Newest(c.inbox, key, c.payments[key]);
      assert DecodesPayment(c.inbox[InboxKey(key.tenant, c.payments[key].event)]);
    } else {
      assert forall l :: l in c.inbox ==> !About(c.inbox[l], key);
    }
  }

  lemma TakenKeepsFold(c: Core, tenant: Id, sequence: nat, m: Message, e: Envelope, d: Core)
    requires Filed(c) && Folded(c) && m.raw.Encoded? && e == m.raw.envelope && (d, CoreInbox.Outcome.Taken) == CoreInbox.Apply(c, tenant, sequence, m)
    ensures Folded(d)
  {
    hide Subject, Token, ValidMoney, Filed, Folded, ApplyPayment, ValidStatus;
    if e.kind.PaymentStatusChanged? {
      var key := ResourceKey(tenant, e.payload.status.resource);
      AcceptedIsNewest(c, e, key);
      FoldKeeps(c, d, InboxKey(e.tenant, e.id), e, key);
    } else {
      OtherKeepsFold(c, d, InboxKey(e.tenant, e.id), e);
    }
  }

  lemma SameTablesSameFold(c: Core, d: Core)
    requires Folded(c) && d.inbox == c.inbox && d.payments == c.payments
    ensures Folded(d)
  {
  }

  // Counters, filing and projection all follow from the inbox.
  ghost predicate Consistent(c: Core) {
    Counted(c) && Filed(c) && Folded(c)
  }

  lemma EmptyIsConsistent()
    ensures Consistent(Core(map[], map[], map[], map[]))
  {
    assert forall tenant, kind :: Entries(map[], tenant, kind) == {};
  }

  lemma ApplyStaysConsistent(c: Core, tenant: Id, sequence: nat, m: Message)
    requires Consistent(c)
    ensures Consistent(CoreInbox.Apply(c, tenant, sequence, m).0)
  {
    hide Counted, Filed, Folded, CoreInbox.Apply, Subject, ValidStatus, Token, CoreInbox.ApplyPayment;
    var (d, outcome) := CoreInbox.Apply(c, tenant, sequence, m);
    ApplyKeepsCount(c, tenant, sequence, m);
    TakenExactlyWhen(c, tenant, sequence, m);
    QuarantineLeavesNoTrace(c, tenant, sequence, m);
    if outcome.Taken? {
      TakenKeepsFold(c, tenant, sequence, m, m.raw.envelope, d);
    } else {
      SameTablesSameFold(c, d);
    }
  }

  // Whatever arrives: each counter is the number of inbox entries of its tenant and
  // type, and each payment row is the newest event taken about its payment.
  lemma {:induction false} InboxDecidesTheRest(arrivals: seq<Arrival>)
    ensures Consistent(Feed(Core(map[], map[], map[], map[]), arrivals))
  {
    hide CoreInbox.Apply, Consistent;
    if arrivals == [] {
      EmptyIsConsistent();
    } else {
      var rest, a := arrivals[..|arrivals| - 1], arrivals[|arrivals| - 1];
      InboxDecidesTheRest(rest);
      ApplyStaysConsistent(Feed(Core(map[], map[], map[], map[]), rest), a.tenant, a.sequence, a.message);
    }
  }

  // Taking the same message at once again changes nothing, whatever it was; so a lost
  // acknowledgement costs nothing.
  lemma ApplyIsIdempotent(c: Core, tenant: Id, sequence: nat, m: Message)
    ensures var (d, outcome) := CoreInbox.Apply(c, tenant, sequence, m);
            CoreInbox.Apply(d, tenant, sequence, m) == (d, if outcome.Quarantined? then Quarantined else Repeated)
  {
    hide ValidEnvelope, Subject, Int64;
  }

  lemma {:induction false} PaymentsNeverRegress(c: Core, arrivals: seq<Arrival>)
    ensures PaymentsForward(c, Feed(c, arrivals))
  {
    hide CoreInbox.Apply;
    if arrivals != [] {
      var a := arrivals[|arrivals| - 1];
      var rest := Feed(c, arrivals[..|arrivals| - 1]);
      PaymentsNeverRegress(c, arrivals[..|arrivals| - 1]);
      ApplyMovesForward(rest, a.tenant, a.sequence, a.message);
    }
  }
}
