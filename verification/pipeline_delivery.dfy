// From the outbox through the broker log into the consumer: nothing genuine is
// refused, and the consumer's rows are exactly the newest events it has taken.
module PipelineDelivery {
  import opened Base
  import opened Events
  import opened CapabilityTables
  import opened CoreInbox
  import opened PaymentHistory
  import Outbox

  // ------------------------------------------------------------- outbox and log

  ghost predicate Logged(events: map<Id, OutboxRow>, m: Message) {
    && m.raw.Encoded? && ValidEnvelope(m.raw.envelope) && m.subject == Subject(m.raw.envelope)
    && m.raw.envelope.id in events && events[m.raw.envelope.id].envelope == m.raw.envelope
  }

  // The broker holds only committed events; a row marked published is in the
  // broker; published and dead exclude each other.
  ghost predicate LogInv(events: map<Id, OutboxRow>, log: seq<Message>) {
    && (forall i :: 0 <= i < |log| ==> Logged(events, log[i]))
    && (forall e :: e in events ==> (events[e].published ==> !events[e].dead && Posted(events[e].envelope) in log))
  }

  // Events persist; only delivery bookkeeping changes.
  ghost predicate Kept(a: map<Id, OutboxRow>, b: map<Id, OutboxRow>) {
    forall e :: e in a ==> e in b && b[e].envelope == a[e].envelope && b[e].tenant == a[e].tenant
  }

  lemma LandingKeepsLog(events: map<Id, OutboxRow>, log: seq<Message>, event: Id)
    requires LogInv(events, log) && event in events && Outbox.Publishable(event, events[event])
    ensures LogInv(events, log + [Posted(events[event].envelope)])
  {
    hide ValidEnvelope, Subject;
    var m := Posted(events[event].envelope);
    assert Logged(events, m);
    forall e | e in events && events[e].published
      ensures Posted(events[e].envelope) in log + [m]
    {
      assert Posted(events[e].envelope) in log;
    }
  }

  lemma AttemptKeepsLog(events: map<Id, OutboxRow>, log: seq<Message>, event: Id, publish: Outbox.Publish, now: int)
    requires LogInv(events, log) && event in events && !events[event].dead && !events[event].published
    requires publish.Acked? && Outbox.Publishable(event, events[event]) ==> Posted(events[event].envelope) in log
    ensures LogInv(events[event := Outbox.Attempt(event, events[event], publish, now)], log)
  {
    hide ValidEnvelope, Subject;
    var rows := events[event := Outbox.Attempt(event, events[event], publish, now)];
    forall i | 0 <= i < |log|
      ensures Logged(rows, log[i])
    {
      assert Logged(events, log[i]);
    }
  }

  lemma ReplayKeepsLog(events: map<Id, OutboxRow>, log: seq<Message>, event: Id, now: int)
    requires LogInv(events, log) && event in events && Outbox.Replay(events[event], now).Ok?
    ensures LogInv(events[event := Outbox.Replay(events[event], now).value], log)
  {
    hide ValidEnvelope, Subject;
  }

  // New events do not disturb the log.
  lemma NewEventsKeepLog(a: map<Id, OutboxRow>, b: map<Id, OutboxRow>, log: seq<Message>)
    requires LogInv(a, log) && (forall e :: e in a ==> e in b && b[e] == a[e]) && (forall e :: e in b && e !in a ==> !b[e].published)
    ensures LogInv(b, log)
  {
    hide ValidEnvelope, Subject;
  }

  lemma BookkeepingKeepsHistory(p: Platform, q: Platform)
    requires History(p) && Kept(p.events, q.events) && q.events.Keys == p.events.Keys && q.resources == p.resources
    ensures History(q)
  {
    hide ValidStatus, Tells;
    forall k, n | k in q.resources && q.resources[k].capability.PaymentV1? && 1 <= n <= q.resources[k].statusRevision
      ensures Told(q.events, k, n)
    {
      assert Told(p.events, k, n);
      var f :| f in p.events && Marks(p.events[f].envelope, k, n);
      assert f in q.events && Marks(q.events[f].envelope, k, n);
    }
  }

  // ------------------------------------------------------------------- consumer

  function Entries(inbox: map<InboxKey, Envelope>, tenant: Id, kind: EventType): set<InboxKey> {
    set k | k in inbox && k.tenant == tenant && inbox[k].kind == kind
  }

  function Tally(c: Core, tenant: Id, kind: EventType): nat {
    var key := ReceiptKey(tenant, kind);
    if key in c.receipts then c.receipts[key] else 0
  }

  ghost predicate Counted(c: Core) {
    && (forall tenant, kind :: Tally(c, tenant, kind) == |Entries(c.inbox, tenant, kind)|)
    && (forall key :: key in c.receipts ==> c.receipts[key] >= 1)
  }

  ghost predicate Taken(events: map<Id, OutboxRow>, inbox: map<InboxKey, Envelope>) {
    forall k :: k in inbox ==>
      inbox[k].id == k.event && inbox[k].tenant == k.tenant && ValidEnvelope(inbox[k])
      && k.event in events && events[k.event].envelope == inbox[k]
  }

  // The row of a payment is the newest event taken about it.
  ghost predicate Newest(inbox: map<InboxKey, Envelope>, key: ResourceKey, row: PaymentRow) {
    var k := InboxKey(key.tenant, row.event);
    && k in inbox && About(inbox[k], key) && inbox[k].payload.status == row.status
    && (forall l :: l in inbox && About(inbox[l], key) ==> inbox[l].payload.status.revision <= row.status.revision)
  }

  ghost predicate Folded(c: Core) {
    && (forall key :: key in c.payments ==> Newest(c.inbox, key, c.payments[key]))
    && (forall l, key :: l in c.inbox && About(c.inbox[l], key) ==> key in c.payments)
  }

  ghost predicate CoreInv(events: map<Id, OutboxRow>, c: Core) {
    Taken(events, c.inbox) && Counted(c) && Folded(c) && c.letters == map[]
  }

  lemma EntriesGrow(inbox: map<InboxKey, Envelope>, k: InboxKey, e: Envelope, tenant: Id, kind: EventType)
    requires k !in inbox && k.tenant == e.tenant
    ensures Entries(inbox[k := e], tenant, kind) == Entries(inbox, tenant, kind) + (if k.tenant == tenant && e.kind == kind then {k} else {})
    ensures k !in Entries(inbox, tenant, kind)
  {
  }

  lemma CountKeeps(c: Core, d: Core, k: InboxKey, e: Envelope)
    requires Counted(c) && k !in c.inbox && k.tenant == e.tenant
    requires d.inbox == c.inbox[k := e] && d.receipts == Count(c, k.tenant, e.kind).receipts
    ensures Counted(d)
  {
    forall tenant, kind
      ensures Tally(d, tenant, kind) == |Entries(d.inbox, tenant, kind)|
    {
      EntriesGrow(c.inbox, k, e, tenant, kind);
      assert Tally(c, tenant, kind) == |Entries(c.inbox, tenant, kind)|;
    }
  }

  // Two committed events about one payment are the same event, or differ in
  // revision and, the same way, in rank; and they agree on the money.
  lemma EventsAgree(p: Platform, e: Id, f: Id, key: ResourceKey)
    requires History(p) && e in p.events && f in p.events && About(p.events[e].envelope, key) && About(p.events[f].envelope, key)
    ensures var a := p.events[e].envelope.payload.status; var b := p.events[f].envelope.payload.status;
            && SamePayment(a, b) && a.simulation == b.simulation
            && (a.revision == b.revision ==> e == f)
            && (a.revision < b.revision ==> Rank(a.status) < Rank(b.status))
  {
    hide ValidStatus;
  }

  // One genuine payment event against one row.
  lemma ApplyAccepts(p: Platform, c: Core, e: Envelope, key: ResourceKey)
    requires History(p) && Taken(p.events, c.inbox) && Folded(c)
    requires e.id in p.events && p.events[e.id].envelope == e && DecodesPayment(e) && About(e, key)
    requires InboxKey(e.tenant, e.id) !in c.inbox
    ensures ApplyPayment(Find(c.payments, key), e).Accept?
    ensures Newest(c.inbox[InboxKey(e.tenant, e.id) := e], key, ApplyPayment(Find(c.payments, key), e).row)
  {
    hide ValidStatus, ValidEnvelope, History;
    if key in c.payments {
      EventsAgree(p, c.payments[key].event, e.id, key);
      EventsAgree(p, e.id, c.payments[key].event, key);
    } else {
      assert forall l :: l in c.inbox ==> !About(c.inbox[l], key);
    }
  }

  lemma FoldKeeps(c: Core, d: Core, k: InboxKey, e: Envelope, key: ResourceKey)
    requires Folded(c) && k !in c.inbox && k == InboxKey(e.tenant, e.id) && d.inbox == c.inbox[k := e] && About(e, key)
    requires key in d.payments && d.payments == c.payments[key := d.payments[key]] && Newest(d.inbox, key, d.payments[key])
    ensures Folded(d)
  {
    forall l | l in d.payments && l != key
      ensures Newest(d.inbox, l, d.payments[l])
    {
      assert Newest(c.inbox, l, c.payments[l]);
    }
  }

  lemma OtherKeepsFold(c: Core, d: Core, k: InboxKey, e: Envelope)
    requires Folded(c) && k !in c.inbox && d.inbox == c.inbox[k := e] && !PaymentEnvelope(e) && d.payments == c.payments
    ensures Folded(d)
  {
    forall l | l in d.payments
      ensures Newest(d.inbox, l, d.payments[l])
    {
      assert Newest(c.inbox, l, c.payments[l]);
    }
  }

  lemma PaymentTaken(p: Platform, c: Core, sequence: nat, m: Message, e: Envelope, d: Core, outcome: CoreInbox.Outcome)
    requires History(p) && CoreInv(p.events, c) && Logged(p.events, m) && e == m.raw.envelope
    requires e.kind.PaymentStatusChanged? && InboxKey(e.tenant, e.id) !in c.inbox
    requires (d, outcome) == Apply(c, e.tenant, sequence, m)
    ensures outcome.Taken? && d.inbox == c.inbox[InboxKey(e.tenant, e.id) := e] && d.letters == c.letters && Folded(d)
    ensures d.receipts == Count(c, e.tenant, e.kind).receipts
  {
    hide ValidStatus, History, Subject, ApplyPayment, Folded, Counted, Taken;
    var key := ResourceKey(e.tenant, e.payload.status.resource);
    ApplyAccepts(p, c, e, key);
    FoldKeeps(c, d, InboxKey(e.tenant, e.id), e, key);
  }

  lemma OtherTaken(events: map<Id, OutboxRow>, c: Core, sequence: nat, m: Message, e: Envelope, d: Core, outcome: CoreInbox.Outcome)
    requires CoreInv(events, c) && Logged(events, m) && e == m.raw.envelope
    requires !e.kind.PaymentStatusChanged? && InboxKey(e.tenant, e.id) !in c.inbox
    requires (d, outcome) == Apply(c, e.tenant, sequence, m)
    ensures outcome.Taken? && d.inbox == c.inbox[InboxKey(e.tenant, e.id) := e] && d.letters == c.letters && Folded(d)
    ensures d.receipts == Count(c, e.tenant, e.kind).receipts
  {
    hide ValidStatus, Subject, Folded, Counted, Taken;
    OtherKeepsFold(c, d, InboxKey(e.tenant, e.id), e);
  }

  // A message of the log is never quarantined, however often it was taken before
  // and whatever was taken in between.
  lemma ApplyKeeps(p: Platform, c: Core, sequence: nat, m: Message, e: Envelope, d: Core, outcome: CoreInbox.Outcome)
    requires History(p) && CoreInv(p.events, c) && Logged(p.events, m) && e == m.raw.envelope
    requires (d, outcome) == Apply(c, e.tenant, sequence, m)
    ensures CoreInv(p.events, d) && !outcome.Quarantined?
    ensures d.inbox == c.inbox[InboxKey(e.tenant, e.id) := e]
  {
    hide History, Subject, Apply, Folded, Counted;
    var k := InboxKey(e.tenant, e.id);
    if k in c.inbox {
      TakenAgain(p.events, c, sequence, m, e, d, outcome);
    } else {
      if e.kind.PaymentStatusChanged? {
        PaymentTaken(p, c, sequence, m, e, d, outcome);
      } else {
        OtherTaken(p.events, c, sequence, m, e, d, outcome);
      }
      CountKeeps(c, d, k, e);
    }
  }

  lemma TakenAgain(events: map<Id, OutboxRow>, c: Core, sequence: nat, m: Message, e: Envelope, d: Core, outcome: CoreInbox.Outcome)
    requires Taken(events, c.inbox) && Logged(events, m) && e == m.raw.envelope && InboxKey(e.tenant, e.id) in c.inbox
    requires (d, outcome) == Apply(c, e.tenant, sequence, m)
    ensures d == c && outcome.Repeated? && c.inbox[InboxKey(e.tenant, e.id)] == e
  {
    hide ValidStatus, Subject;
  }

  lemma KeptKeepsCore(a: map<Id, OutboxRow>, b: map<Id, OutboxRow>, c: Core)
    requires CoreInv(a, c) && Kept(a, b)
    ensures CoreInv(b, c)
  {
  }
}
