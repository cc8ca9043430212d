// The consumer's whole state is a function of the set of messages it has taken:
// order and repetition leave no trace.
module PipelineOrders {
  import opened Events
  import opened CapabilityTables
  import opened CoreInbox
  import opened PaymentHistory
  import opened Pipeline
  import opened PipelineLinks
  import opened PaymentSeen
  import opened PipelineDelivery
  import opened PipelineTheorems

  // Positions that hold a decodable message.
  predicate Held(log: seq<Message>, order: seq<nat>) {
    forall j :: 0 <= j < |order| ==> order[j] < |log| && log[order[j]].raw.Encoded?
  }

  // The consumer takes the messages at these log positions, in this order.
  function Deliver(c: Core, log: seq<Message>, order: seq<nat>): Core
    requires Held(log, order)
  {
    if order == [] then c
    else
      var i := order[|order| - 1];
      Apply(Deliver(c, log, order[..|order| - 1]), log[i].raw.envelope.tenant, i + 1, log[i]).0
  }

  function KeyOf(m: Message): InboxKey
    requires m.raw.Encoded?
  {
    InboxKey(m.raw.envelope.tenant, m.raw.envelope.id)
  }

  ghost predicate At(log: seq<Message>, order: seq<nat>, k: InboxKey) {
    exists i :: i in order && i < |log| && log[i].raw.Encoded? && KeyOf(log[i]) == k
  }

  // After any order of deliveries the inbox holds what it held and what arrived.
  lemma {:induction false} DeliverKeeps(s: Sys, order: seq<nat>)
    requires Inv(s) && Held(s.log, order)
    ensures CoreInv(s.platform.events, Deliver(s.core, s.log, order))
    ensures forall k :: k in Deliver(s.core, s.log, order).inbox <==> k in s.core.inbox || At(s.log, order, k)
  {
    hide CoreInv, Apply, AppInv, History, Linked, GoodRows, LogInv;
    if order != [] {
      var rest, i := order[..|order| - 1], order[|order| - 1];
      DeliverKeeps(s, rest);
      var c := Deliver(s.core, s.log, rest);
      ConsumeKeeps(s.(core := c), i);
      forall k
        ensures At(s.log, order, k) <==> At(s.log, rest, k) || KeyOf(s.log[i]) == k
      {
        AtLast(s.log, order, k);
      }
    }
  }

  lemma AtLast(log: seq<Message>, order: seq<nat>, k: InboxKey)
    requires order != [] && Held(log, order)
    ensures At(log, order, k) <==> At(log, order[..|order| - 1], k) || KeyOf(log[order[|order| - 1]]) == k
  {
    assert order == order[..|order| - 1] + [order[|order| - 1]];
    if KeyOf(log[order[|order| - 1]]) == k {
      assert order[|order| - 1] in order;
    }
  }

  lemma SameInboxSameRow(p: Platform, inbox: map<InboxKey, Envelope>, key: ResourceKey, a: PaymentRow, b: PaymentRow)
    requires History(p) && PipelineDelivery.Taken(p.events, inbox) && Newest(inbox, key, a) && Newest(inbox, key, b)
    ensures a == b
  {
    hide History;
    EventsAgree(p, a.event, b.event, key);
    EventsAgree(p, b.event, a.event, key);
  }

  // Equal inboxes, equal consumers.
  lemma InboxDeterminesCore(p: Platform, c: Core, d: Core)
    requires History(p) && CoreInv(p.events, c) && CoreInv(p.events, d) && c.inbox == d.inbox
    ensures c == d
  {
    hide History, About, PipelineDelivery.Taken, Newest;
    forall key | key in c.payments
      ensures key in d.payments && c.payments[key] == d.payments[key]
    {
      RowHasEntry(c.inbox, key, c.payments[key]);
      SameInboxSameRow(p, c.inbox, key, c.payments[key], d.payments[key]);
    }
    forall key | key in d.payments
      ensures key in c.payments
    {
      RowHasEntry(d.inbox, key, d.payments[key]);
    }
    assert c.payments == d.payments;
    SameReceipts(c, d);
  }

  lemma RowHasEntry(inbox: map<InboxKey, Envelope>, key: ResourceKey, row: PaymentRow)
    requires Newest(inbox, key, row)
    ensures exists l :: l in inbox && About(inbox[l], key)
  {
  }

  lemma SameReceipts(c: Core, d: Core)
    requires Counted(c) && Counted(d) && c.inbox == d.inbox
    ensures c.receipts == d.receipts
  {
    forall tenant, kind
      ensures Tally(c, tenant, kind) == Tally(d, tenant, kind)
    {
      assert Tally(c, tenant, kind) == |Entries(c.inbox, tenant, kind)|;
      assert Tally(d, tenant, kind) == |Entries(c.inbox, tenant, kind)|;
    }
    forall key: ReceiptKey
      ensures key in c.receipts <==> key in d.receipts
      ensures key in c.receipts ==> c.receipts[key] == d.receipts[key]
    {
      assert Tally(c, key.tenant, key.kind) == Tally(d, key.tenant, key.kind);
    }
  }

  // Any two ways to deliver the same messages, in any order and with any
  // repetitions, end in the same inbox, receipts, payments and dead letters.
  lemma OrderDoesNotMatter(t: Sys, a: seq<nat>, b: seq<nat>)
    requires Reachable(t)
    requires (forall j :: 0 <= j < |a| ==> a[j] < |t.log|) && (forall j :: 0 <= j < |b| ==> b[j] < |t.log|)
    requires forall i :: i in a <==> i in b
    ensures Held(t.log, a) && Held(t.log, b) && Deliver(t.core, t.log, a) == Deliver(t.core, t.log, b)
  {
    hide Reachable, PaymentsInv, CoreInv, Deliver;
    ReachableIsSafe(t);
    assert forall i :: 0 <= i < |t.log| ==> Logged(t.platform.events, t.log[i]);
    SameEntries(t, a, b);
  }

  lemma SameEntries(t: Sys, a: seq<nat>, b: seq<nat>)
    requires Inv(t) && Held(t.log, a) && Held(t.log, b)
    requires forall i :: i in a <==> i in b
    ensures Deliver(t.core, t.log, a) == Deliver(t.core, t.log, b)
  {
    hide Deliver, AppInv, History, Linked, GoodRows, LogInv, Counted, Folded, SeenInv;
    DeliverKeeps(t, a);
    DeliverKeeps(t, b);
    var c, d := Deliver(t.core, t.log, a), Deliver(t.core, t.log, b);
    forall k
      ensures At(t.log, a, k) <==> At(t.log, b, k)
    {
    }
    assert c.inbox == d.inbox;
    InboxDeterminesCore(t.platform, c, d);
  }
}
