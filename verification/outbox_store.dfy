// The outbox worker on its table and the broker it publishes to. Publishing is an
// outside effect: what the broker stored stays, even when the worker's own
// transaction is lost afterwards.
module OutboxStore {
  import opened Base
  import opened Events
  import opened CapabilityTables
  import opened Outbox

  // What becomes of one publish call: stored and acknowledged, stored but the
  // acknowledgement is lost, recognised by its message id, refused, or lost.
  datatype Fate = StoredAcked | StoredSilent | Recognised | RefusedAsInvalid | LostSilent

  // What the publisher hears.
  function Heard(fate: Fate): Publish {
    match fate
    case StoredAcked => Acked
    case Recognised => Acked
    case RefusedAsInvalid => Permanent
    case _ => NoAnswer
  }

  predicate Stores(fate: Fate) {
    fate.StoredAcked? || fate.StoredSilent?
  }

  class Broker {
    var log: seq<Message>

    // The answer the publisher reads off the broker; a message is recognised only
    // if the stream already has it.
    method Send(e: Envelope, fate: Fate) returns (p: Publish)
      requires fate.Recognised? ==> Posted(e) in log
      modifies this
      ensures log == old(log) + (if Stores(fate) then [Posted(e)] else []) && p == Heard(fate)
      ensures p.Acked? ==> Posted(e) in log
    {
      if Stores(fate) {
        log := log + [Posted(e)];
        assert log[|log| - 1] == Posted(e);
      }
      p := Heard(fate);
    }
  }

  // Published rows are in the broker and never dead; no row has had more than twelve
  // attempts, and one still waiting at most eleven.
  ghost predicate Accounted(events: map<Id, OutboxRow>, log: seq<Message>) {
    forall e :: e in events ==>
      && (events[e].published ==> !events[e].dead && Posted(events[e].envelope) in log)
      && events[e].attempts <= MAX_ATTEMPTS && (!events[e].published && !events[e].dead ==> events[e].attempts < MAX_ATTEMPTS)
  }

  lemma AccountedLater(events: map<Id, OutboxRow>, log: seq<Message>, more: seq<Message>)
    requires Accounted(events, log)
    ensures Accounted(events, log + more)
  {
  }

  lemma AttemptStaysAccounted(events: map<Id, OutboxRow>, log: seq<Message>, id: Id, answer: Publish, now: int)
    requires Accounted(events, log) && id in events && Due(events[id], now)
    requires answer.Acked? && Publishable(id, events[id]) ==> Posted(events[id].envelope) in log
    ensures Accounted(events[id := Attempt(id, events[id], answer, now)], log)
  {
    hide Publishable, Posted, Backoff;
  }

  lemma ReplayStaysAccounted(events: map<Id, OutboxRow>, log: seq<Message>, id: Id, now: int)
    requires Accounted(events, log) && id in events && Outbox.Replay(events[id], now).Ok?
    ensures Accounted(events[id := Outbox.Replay(events[id], now).value], log)
  {
    hide Posted;
  }

  datatype Delivery = Idle | Published | Retry | DeadLettered

  // One turn of a batch: the rows other workers hold, what becomes of the publish call,
  // and whether the row's own transaction survives.
  datatype Turn = Turn(locked: set<Id>, fate: Fate, committed: bool, now: int)

  const BATCH := 20

  // The stream recognises only what it has.
  function Actual(fate: Fate, known: bool): Fate {
    if fate.Recognised? && !known then LostSilent else fate
  }

  function Sent(events: map<Id, OutboxRow>): set<Id> {
    set e | e in events && events[e].published
  }

  // Rows persist with their envelopes, and published ones are not touched.
  ghost predicate Onward(a: map<Id, OutboxRow>, b: map<Id, OutboxRow>) {
    b.Keys == a.Keys && forall e :: e in a ==> b[e].envelope == a[e].envelope && (a[e].published ==> b[e] == a[e])
  }

  lemma AttemptGoesOn(start: map<Id, OutboxRow>, events: map<Id, OutboxRow>, id: Id, answer: Publish, now: int)
    requires Onward(start, events) && id in events && Due(events[id], now)
    ensures var row := Attempt(id, events[id], answer, now);
            && Onward(start, events[id := row])
            && Sent(events[id := row]) == Sent(events) + (if row.published then {id} else {}) && id !in Sent(events)
  {
    hide Publishable, Backoff;
  }

  ghost predicate NothingDue(events: map<Id, OutboxRow>, locked: set<Id>, now: int) {
    forall e :: e in events && e !in locked ==> !Due(events[e], now)
  }

  // ORDER BY next_attempt_at, id
  predicate Sooner(events: map<Id, OutboxRow>, e: Id, f: Id)
    requires e in events && f in events
  {
    events[e].nextAt < events[f].nextAt || (events[e].nextAt == events[f].nextAt && Before(e, f))
  }

  lemma SoonerIsTotal(events: map<Id, OutboxRow>, e: Id, f: Id)
    requires e in events && f in events && e != f
    ensures Sooner(events, e, f) <==> !Sooner(events, f, e)
  {
    BeforeIsTotal(e, f);
  }

  lemma SoonerGoesOn(events: map<Id, OutboxRow>, e: Id, f: Id, g: Id)
    requires e in events && f in events && g in events && Sooner(events, e, f) && Sooner(events, f, g)
    ensures Sooner(events, e, g)
  {
    hide Before;
    if events[e].nextAt == events[g].nextAt {
      BeforeGoesOn(e, f, g);
    }
  }

  class Store {
    var events: map<Id, OutboxRow>

    // What every turn finds and leaves behind, given what the broker holds.
    ghost predicate Valid(log: seq<Message>)
      reads this
    {
      Accounted(events, log)
    }

    constructor ()
      ensures events == map[] && forall log :: Valid(log)
    {
      events := map[];
    }

    // The first due row by next attempt and id, leaving out rows that other workers
    // have locked.
    method Earliest(locked: set<Id>, now: int) returns (chosen: Option<Id>)
      ensures chosen.None? ==> NothingDue(events, locked, now)
      ensures chosen.Some? ==>
                && chosen.value in events && chosen.value !in locked && Due(events[chosen.value], now)
                && forall e :: e in events && e !in locked && e != chosen.value && Due(events[e], now) ==> Sooner(events, chosen.value, e)
    {
      hide Before;
      chosen := None;
      var rest := events.Keys - locked;
      while rest != {}
        invariant rest <= events.Keys - locked
        invariant chosen.None? ==> forall e :: e in events.Keys - locked - rest ==> !Due(events[e], now)
        invariant chosen.Some? ==>
                    && chosen.value in events && chosen.value !in locked && chosen.value !in rest && Due(events[chosen.value], now)
                    && forall e :: e in events.Keys - locked - rest && e != chosen.value && Due(events[e], now) ==> Sooner(events, chosen.value, e)
        decreases |rest|
      {
        var e :| e in rest;
        rest := rest - {e};
        if Due(events[e], now) {
          if chosen.None? {
            chosen := Some(e);
          } else {
            SoonerIsTotal(events, e, chosen.value);
            if Sooner(events, e, chosen.value) {
              forall f | f in events && Sooner(events, chosen.value, f)
                ensures Sooner(events, e, f)
              {
                SoonerGoesOn(events, e, chosen.value, f);
              }
              chosen := Some(e);
            }
          }
        }
      }
    }

    // One worker turn on the row it locked. `committed` false is a crash after the
    // publish: the broker keeps what it stored, the row is as before.
    method DeliverOne(broker: Broker, chosen: Option<Id>, fate: Fate, committed: bool, now: int) returns (result: Delivery)
      requires chosen.Some? ==> chosen.value in events && Due(events[chosen.value], now)
      requires chosen.Some? && fate.Recognised? ==> Posted(events[chosen.value].envelope) in broker.log
      requires Valid(broker.log)
      modifies this, broker
      ensures Valid(broker.log)
      ensures result.Idle? <==> chosen.None?
      ensures chosen.None? ==> events == old(events) && broker.log == old(broker.log)
      ensures chosen.Some? ==>
                var id := chosen.value;
                var row := old(events)[id];
                var answer := if Publishable(id, row) then Heard(fate) else Permanent;
                && broker.log == old(broker.log) + (if Publishable(id, row) && Stores(fate) then [Posted(row.envelope)] else [])
                && events == (if committed then old(events)[id := Attempt(id, row, answer, now)] else old(events))
                && (committed ==> (result.Published? <==> events[id].published) && (result.DeadLettered? <==> events[id].dead))
                && (events[id].published ==> Posted(row.envelope) in broker.log)
                && (committed ==>
                      var sent := Publishable(id, row) && (fate.StoredAcked? || fate.Recognised?);
                      && events[id].attempts == row.attempts + 1 && events[id].published == sent
                      && events[id].dead == (!sent && (!Publishable(id, row) || fate.RefusedAsInvalid? || row.attempts + 1 >= 12 || now - row.occurredAt > 86400))
                      && (!sent ==> events[id].nextAt == now + Backoff(row.attempts + 1)))
    {
      hide Accounted, Publishable, Backoff;
      if chosen.None? {
        return Idle;
      }
      var id := chosen.value;
      var row := events[id];
      var p := Permanent;
      if Publishable(id, row) {
        p := broker.Send(row.envelope, fate);
      }
      AccountedLater(events, old(broker.log), broker.log[|old(broker.log)|..]);
      assert broker.log == old(broker.log) + broker.log[|old(broker.log)|..];
      AttemptStaysAccounted(events, broker.log, id, p, now);
      Outbox.SettledAsAnswered(id, row, p, now);
      var attempts := row.attempts + 1;
      if p.Acked? {
        row := row.(published := true, attempts := attempts);
        result := Published;
      } else {
        var dead := attempts >= MAX_ATTEMPTS || now - row.occurredAt > DAY;
        if p.Permanent? {
          dead := true;
        }
        result := if dead then DeadLettered else Retry;
        row := row.(attempts := attempts, nextAt := now + Backoff(attempts), dead := dead);
      }
      if committed {
        events := events[id := row];
      }
    }

    // The operator's replay; every field but the bookkeeping stays.
    method Replay(id: Id, actor: string, reason: string, now: int, ghost log: seq<Message>) returns (fault: Option<Fault>)
      requires Valid(log)
      modifies this
      ensures Valid(log)
      ensures fault == (if !Token(id) || actor == "" || |reason| < 8 || |reason| > 500 then Some(Invalid)
                        else if id in old(events) && Outbox.Replay(old(events)[id], now).Ok? then None
                        else Some(NotFound))
      ensures events == (if fault.None? then old(events)[id := Outbox.Replay(old(events)[id], now).value] else old(events))
      ensures fault.None? ==> id in old(events) && old(events)[id].dead && !old(events)[id].published && events == old(events)[id := old(events)[id].(dead := false, attempts := 0, nextAt := now)]
    {
      if !Token(id) || actor == "" || |reason| < 8 || |reason| > 500 {
        return Some(Invalid);
      }
      if id !in events || !events[id].dead || events[id].published {
        return Some(NotFound);
      }
      ReplayStaysAccounted(events, log, id, now);
      Outbox.RevivedExactlyWhen(events[id], now);
      events := events[id := events[id].(attempts := 0, nextAt := now, dead := false)];
      fault := None;
    }

    // The worker's batch: up to twenty turns, until nothing is due, a publish fails or a
    // commit is lost. Each turn that goes on has published another row, nothing that was
    // published is touched, and the broker only gains messages.
    method DeliverBatch(broker: Broker, turns: seq<Turn>) returns (last: Delivery, published: nat)
      requires Valid(broker.log) && |turns| == BATCH
      modifies this, broker
      ensures Valid(broker.log) && old(broker.log) <= broker.log && Onward(old(events), events)
      ensures |Sent(events)| == |Sent(old(events))| + published && published <= BATCH
      ensures last.Idle? ==> exists i :: 0 <= i < BATCH && NothingDue(events, turns[i].locked, turns[i].now)
      ensures last.Published? ==> published == BATCH || exists i :: 0 <= i < BATCH && !turns[i].committed
    {
      hide Accounted, Publishable, Attempt, Due, Onward, NothingDue, Sent;
      ghost var start := events;
      last, published := Idle, 0;
      OnwardSelf(events);
      for i := 0 to BATCH
        invariant Valid(broker.log) && old(broker.log) <= broker.log && Onward(start, events)
        invariant |Sent(events)| == |Sent(start)| + published && published == i
        invariant i > 0 ==> last.Published?
      {
        var turn := turns[i];
        var chosen := Earliest(turn.locked, turn.now);
        if chosen.None? {
          return Idle, published;
        }
        var fate := Actual(turn.fate, Posted(events[chosen.value].envelope) in broker.log);
        AttemptGoesOn(start, events, chosen.value, if Publishable(chosen.value, events[chosen.value]) then Heard(fate) else Permanent, turn.now);
        last := DeliverOne(broker, chosen, fate, turn.committed, turn.now);
        if !last.Published? || !turn.committed {
          return;
        }
        published := published + 1;
      }
    }
  }

  lemma OnwardSelf(events: map<Id, OutboxRow>)
    ensures Onward(events, events)
  {
  }
}
