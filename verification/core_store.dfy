// The consumer's tables as its transactions change them, and the broker loop that
// acknowledges only what has been committed.
module CoreStore {
  import opened Base
  import opened Events
  import opened CapabilityTables
  import opened CoreInbox
  import Consumer

  class Inbox {
    var inbox: map<InboxKey, Envelope>
    var receipts: map<ReceiptKey, nat>
    var payments: map<ResourceKey, PaymentRow>
    var letters: map<LetterKey, Reason>

    function State(): Core
      reads this
    {
      Core(inbox, receipts, payments, letters)
    }

    // What every transaction finds and leaves behind.
    ghost predicate Valid()
      reads this
    {
      Consumer.Consistent(State())
    }

    constructor ()
      ensures State() == Core(map[], map[], map[], map[]) && Valid()
    {
      inbox, receipts, payments, letters := map[], map[], map[], map[];
      new;
      Consumer.EmptyIsConsistent();
    }

    // Locks and reads the old row, then upserts. A reason means that the event is
    // refused and the row is as it was.
    method ApplyPayment(e: Envelope) returns (refused: Option<Reason>)
      requires PaymentEnvelope(e)
      modifies this`payments
      ensures var key := ResourceKey(e.tenant, e.payload.status.resource);
              match CoreInbox.ApplyPayment(Find(old(payments), key), e)
              case Refuse(reason) => refused == Some(reason) && payments == old(payments)
              case Accept(row) => refused == None && payments == old(payments)[key := row]
    {
      if !DecodesPayment(e) {
        return Some(InvalidPayment);
      }
      var p := e.payload.status;
      var key := ResourceKey(e.tenant, p.resource);
      if key in payments {
        var q := payments[key].status;
        if !SamePayment(q, p) {
          return Some(IdentityConflict);
        }
        if p.revision < q.revision {
          assert payments == payments[key := payments[key]];
          return None;
        }
        if p.revision == q.revision {
          assert payments == payments[key := payments[key]];
          return if q.status != p.status then Some(RevisionConflict) else None;
        }
        if Rank(p.status) < Rank(q.status) {
          return Some(StatusRegression);
        }
        payments := payments[key := PaymentRow(q.(status := p.status, revision := p.revision), e.id)];
      } else {
        payments := payments[key := PaymentRow(p, e.id)];
      }
      refused := None;
    }

    // INSERT INTO dead_letters ... ON CONFLICT DO NOTHING
    method Bury(tenant: Id, sequence: nat, reason: Reason)
      modifies this`letters
      ensures State() == CoreInbox.Bury(old(State()), tenant, sequence, reason)
    {
      var key := LetterKey(tenant, Int64(sequence));
      if key !in letters {
        letters := letters[key := reason];
      }
    }

    // One message: the inbox row goes in first and is taken out again when the
    // payment event is refused.
    method Apply(tenant: Id, sequence: nat, m: Message) returns (outcome: CoreInbox.Outcome)
      requires Valid()
      modifies this
      ensures (State(), outcome) == CoreInbox.Apply(old(State()), tenant, sequence, m) && Valid()
    {
      hide ValidEnvelope, Subject, CoreInbox.ApplyPayment, CoreInbox.Bury, Consumer.Consistent;
      Consumer.ApplyStaysConsistent(State(), tenant, sequence, m);
      if !Decodes(m.raw) {
        Bury(tenant, sequence, InvalidContract);
        return Quarantined;
      }
      var e := m.raw.envelope;
      if e.tenant != tenant || m.subject != Subject(e) {
        Bury(tenant, sequence, TenantOrSubjectMismatch);
        return Quarantined;
      }
      var key := InboxKey(tenant, e.id);
      if key in inbox {
        if inbox[key] == e {
          return Repeated;
        }
        Bury(tenant, sequence, EventIdCollision);
        return Quarantined;
      }
      inbox := inbox[key := e];
      if e.kind.PaymentStatusChanged? {
        assert PaymentEnvelope(e) by { ValidPaymentDecodes(e); }
        var refused := ApplyPayment(e);
        if refused.Some? {
          inbox := inbox - {key};
          assert inbox == old(inbox);
          Bury(tenant, sequence, refused.value);
          return Quarantined;
        }
      }
      var counter := ReceiptKey(tenant, e.kind);
      receipts := receipts[counter := (if counter in receipts then receipts[counter] else 0) + 1];
      outcome := Taken;
    }
  }

  lemma ValidPaymentDecodes(e: Envelope)
    requires ValidEnvelope(e) && e.kind.PaymentStatusChanged?
    ensures DecodesPayment(e)
  {
  }

  // What the broker is told about a message.
  datatype Signal = Nothing | Term | Ack

  // One turn: what the broker hands out, whether the database transaction survives,
  // and whether the broker hears the signal sent after it.
  datatype Turn = Turn(position: Option<nat>, committed: bool, heard: bool)

  // Takes the message the broker hands out, unless the fetch timed out. The database
  // may fail: then nothing changed and nothing is signalled. The signal may get lost:
  // then the message comes again.
  method ConsumeOne(core: Inbox, log: seq<Message>, tenant: Id, turn: Turn) returns (signal: Signal)
    requires core.Valid() && (turn.position.Some? ==> turn.position.value < |log|)
    modifies core
    ensures core.Valid() && core.State() == After(old(core.State()), log, tenant, turn)
    ensures !signal.Nothing? <==> turn.position.Some? && turn.committed && turn.heard
    ensures !signal.Nothing? ==> (signal.Term? <==> CoreInbox.Apply(old(core.State()), tenant, turn.position.value + 1, log[turn.position.value]).1.Quarantined?)
  {
    hide Consumer.Consistent, CoreInbox.Apply;
    if turn.position.None? || !turn.committed {
      return Nothing;
    }
    var outcome := core.Apply(tenant, turn.position.value + 1, log[turn.position.value]);
    signal := if !turn.heard then Nothing else if outcome.Quarantined? then Term else Ack;
  }

  ghost function After(c: Core, log: seq<Message>, tenant: Id, turn: Turn): Core
    requires turn.position.Some? ==> turn.position.value < |log|
  {
    if turn.position.Some? && turn.committed then CoreInbox.Apply(c, tenant, turn.position.value + 1, log[turn.position.value]).0 else c
  }

  predicate InLog(log: seq<Message>, turns: seq<Turn>) {
    forall i :: 0 <= i < |turns| && turns[i].position.Some? ==> turns[i].position.value < |log|
  }

  // The messages whose transactions were committed, in that order.
  ghost function Committed(log: seq<Message>, tenant: Id, turns: seq<Turn>): seq<Consumer.Arrival>
    requires InLog(log, turns)
  {
    if turns == [] then []
    else
      var rest, last := turns[..|turns| - 1], turns[|turns| - 1];
      Committed(log, tenant, rest) + (if last.position.Some? && last.committed then [Consumer.Arrival(tenant, last.position.value + 1, log[last.position.value])] else [])
  }

  lemma OneMoreCommitted(c: Core, log: seq<Message>, tenant: Id, turns: seq<Turn>)
    requires turns != [] && InLog(log, turns)
    ensures var rest := turns[..|turns| - 1];
            Consumer.Feed(c, Committed(log, tenant, turns)) == After(Consumer.Feed(c, Committed(log, tenant, rest)), log, tenant, turns[|turns| - 1])
  {
    hide CoreInbox.Apply;
    var rest, last := turns[..|turns| - 1], turns[|turns| - 1];
    var before, all := Committed(log, tenant, rest), Committed(log, tenant, turns);
    if last.position.Some? && last.committed {
      assert all[..|all| - 1] == before;
    } else {
      assert all == before;
    }
  }

  // The consumer's loop: whatever times out, fails or comes again, it ends in the state
  // that the committed messages alone lead to.
  method ConsumeAll(core: Inbox, log: seq<Message>, tenant: Id, turns: seq<Turn>)
    requires core.Valid() && InLog(log, turns)
    modifies core
    ensures core.Valid() && core.State() == Consumer.Feed(old(core.State()), Committed(log, tenant, turns))
  {
    hide Consumer.Consistent, CoreInbox.Apply, After;
    ghost var start := core.State();
    for i := 0 to |turns|
      invariant core.Valid() && core.State() == Consumer.Feed(start, Committed(log, tenant, turns[..i]))
    {
      var _ := ConsumeOne(core, log, tenant, turns[i]);
      assert turns[..i + 1][..i] == turns[..i];
      OneMoreCommitted(start, log, tenant, turns[..i + 1]);
    }
    assert turns[..|turns|] == turns;
  }
}
