// The webhook queue towards installed apps: one delivery decision, cancellation
// when the installation is gone, and replays by revision.
module Webhooks {
  import opened Base
  import opened RemoteApp

  datatype Hook = Hook(status: QueueStatus, attempts: nat, nextAt: int, createdAt: int, revision: nat)

  // What the worker finds under the installation gate: the installation is not
  // active; the subscription or scope is gone; or the receiver may be called,
  // with or without a usable connection, and answers well or not.
  datatype Finding = Inactive | Unsubscribed | Callable(connected: bool, delivered: bool)

  const MAX_ATTEMPTS := 12
  const DAY := 24 * 3600

  predicate Due(h: Hook, now: int) {
    h.status.Pending? && h.nextAt <= now
  }

  // The decision of one worker turn, as it is written back.
  function Decide(h: Hook, f: Finding, now: int): Hook {
    var next := h.attempts + 1;
    match f
    case Callable(connected, delivered) =>
      var at := now + Backoff(next);
      if now - h.createdAt > DAY || next > MAX_ATTEMPTS then Hook(Dead, h.attempts, at, h.createdAt, h.revision + 1)
      else if connected && delivered then Hook(Delivered, next, at, h.createdAt, h.revision + 1)
      else Hook(if next >= MAX_ATTEMPTS then Dead else Pending, next, at, h.createdAt, h.revision + 1)
    case _ => Hook(Cancelled, h.attempts, now, h.createdAt, h.revision + 1)
  }

  // The installation row no longer exists: only a pending delivery is cancelled.
  function CancelPending(h: Hook): Hook {
    if h.status.Pending? then h.(status := Cancelled, revision := h.revision + 1) else h
  }

  // A dead delivery is revived; the owner's request names the revision it saw.
  function Revive(h: Hook, expected: Option<nat>, now: int): Result<Hook> {
    if !h.status.Dead? || (expected.Some? && expected.value != h.revision)
    then Err(if expected.Some? then Conflict else NotFound)
    else Ok(Hook(Pending, 0, now, now, h.revision + 1))
  }

  // No delivery is tried more than twelve times.
  ghost predicate Budgeted(hooks: map<Id, Hook>) {
    forall d :: d in hooks ==> hooks[d].attempts <= MAX_ATTEMPTS && (hooks[d].status.Pending? ==> hooks[d].attempts < MAX_ATTEMPTS)
  }

  lemma DecisionKeepsBudget(hooks: map<Id, Hook>, id: Id, f: Finding, now: int)
    requires Budgeted(hooks) && id in hooks && hooks[id].status.Pending?
    ensures Budgeted(hooks[id := Decide(hooks[id], f, now)])
  {
    hide Backoff;
  }

  // What becomes of a delivery that was due: cancelled, without an attempt, when the
  // installation or its subscription is gone; dead, without one, when its day or its twelve
  // attempts are over; delivered when the receiver took it; and otherwise waiting, unless
  // this was the twelfth attempt.
  lemma SettledAsFound(h: Hook, f: Finding, now: int)
    ensures var next := Decide(h, f, now);
            var over := now - h.createdAt > 86400 || h.attempts >= 12;
            && next.createdAt == h.createdAt && next.revision == h.revision + 1
            && next.attempts == h.attempts + (if f.Callable? && !over then 1 else 0)
            && next.status == (if !f.Callable? then Cancelled else if over then Dead else if f.connected && f.delivered then Delivered else if h.attempts + 1 >= 12 then Dead else Pending)
            && next.nextAt == (if f.Callable? then now + Backoff(h.attempts + 1) else now)
  {
    hide Backoff;
  }

  // A replay: of a dead delivery, by an owner only at the revision they saw.
  lemma RevivedExactlyWhen(h: Hook, expected: Option<nat>, now: int)
    ensures Revive(h, expected, now).Ok? <==> h.status.Dead? && (expected.Some? ==> expected.value == h.revision)
    ensures Revive(h, expected, now).Ok? ==> Revive(h, expected, now).value == Hook(Pending, 0, now, now, h.revision + 1)
    ensures Revive(h, expected, now).Err? ==> Revive(h, expected, now).fault == if expected.Some? then Conflict else NotFound
  {
  }

  class Queue {
    var hooks: map<Id, Hook>

    // What every turn finds and leaves behind.
    ghost predicate Valid()
      reads this
    {
      Budgeted(hooks)
    }

    constructor ()
      ensures hooks == map[] && Valid()
    {
      hooks := map[];
    }

    method Cancel(id: Id)
      requires Valid()
      modifies this
      ensures Valid()
      ensures hooks == if id in old(hooks) then old(hooks)[id := CancelPending(old(hooks)[id])] else old(hooks)
      ensures id in old(hooks) ==>
                hooks == if old(hooks)[id].status.Pending? then old(hooks)[id := old(hooks)[id].(status := Cancelled, revision := old(hooks)[id].revision + 1)] else old(hooks)
    {
      if id in hooks && hooks[id].status.Pending? {
        hooks := hooks[id := hooks[id].(status := Cancelled, revision := hooks[id].revision + 1)];
      } else if id in hooks {
        assert hooks == hooks[id := hooks[id]];
      }
    }

    method DeliverOne(id: Id, f: Finding, now: int) returns (status: Option<QueueStatus>)
      requires Valid()
      modifies this
      ensures Valid()
      ensures if id in old(hooks) && Due(old(hooks)[id], now)
              then hooks == old(hooks)[id := Decide(old(hooks)[id], f, now)] && status == Some(hooks[id].status)
              else hooks == old(hooks) && status == None
      ensures id in old(hooks) && old(hooks)[id].status.Pending? && old(hooks)[id].nextAt <= now ==>
                var h := old(hooks)[id];
                var over := now - h.createdAt > 86400 || h.attempts >= 12;
                && id in hooks && status == Some(hooks[id].status)
                && hooks[id].attempts == h.attempts + (if f.Callable? && !over then 1 else 0)
                && hooks[id].status == (if !f.Callable? then Cancelled else if over then Dead else if f.connected && f.delivered then Delivered else if h.attempts + 1 >= 12 then Dead else Pending)
    {
      hide Budgeted, Backoff;
      if id in hooks {
        SettledAsFound(hooks[id], f, now);
      }
      if id !in hooks || !Due(hooks[id], now) {
        return None;
      }
      DecisionKeepsBudget(hooks, id, f, now);
      var h := hooks[id];
      var outcome := Pending;
      var attempts, at := h.attempts + 1, now + Backoff(h.attempts + 1);
      if !f.Callable? {
        outcome, attempts, at := Cancelled, h.attempts, now;
      } else if now - h.createdAt > DAY || attempts > MAX_ATTEMPTS {
        attempts := h.attempts;
        outcome := Dead;
      } else {
        if f.connected && f.delivered {
          outcome := Delivered;
        }
        if !outcome.Delivered? && attempts >= MAX_ATTEMPTS {
          outcome := Dead;
        }
      }
      hooks := hooks[id := Hook(outcome, attempts, at, h.createdAt, h.revision + 1)];
      status := Some(outcome);
    }
  }

  // ------------------------------------------------- the receiving end of a webhook

  datatype DeliveryKey = DeliveryKey(tenant: Id, installation: Id, delivery: Id)

  // The body hash is injective, so the body stands for it.
  datatype Received = Received(event: Id, body: string)

  // A row of the same installation with this delivery or this event.
  predicate Seen(inbox: map<DeliveryKey, Received>, k: DeliveryKey, event: Id, l: DeliveryKey) {
    l in inbox && l.tenant == k.tenant && l.installation == k.installation && (l.delivery == k.delivery || inbox[l].event == event)
  }

  // A signed webhook is recorded once; a repetition must carry the same body. The event
  // is the one that the body decodes to.
  ghost function Receive(inbox: map<DeliveryKey, Received>, decode: string -> Id, a: Arrival): (map<DeliveryKey, Received>, Result<()>) {
    var event := decode(a.body);
    if !a.granted then (inbox, Err(Unauthenticated))
    else if l :| Seen(inbox, a.key, event, l) then (inbox, if inbox[l].body == a.body then Ok(()) else Err(Conflict))
    else (inbox[a.key := Received(event, a.body)], Ok(()))
  }

  datatype Arrival = Arrival(granted: bool, key: DeliveryKey, body: string)

  ghost function ReceiveAll(decode: string -> Id, arrivals: seq<Arrival>): map<DeliveryKey, Received> {
    if arrivals == [] then map[] else Receive(ReceiveAll(decode, arrivals[..|arrivals| - 1]), decode, arrivals[|arrivals| - 1]).0
  }

  // What the sender of an arrival was told.
  ghost function Told(decode: string -> Id, arrivals: seq<Arrival>, i: nat): Result<()>
    requires i < |arrivals|
  {
    Receive(ReceiveAll(decode, arrivals[..i]), decode, arrivals[i]).1
  }

  ghost predicate OncePerEvent(inbox: map<DeliveryKey, Received>) {
    forall k, l :: k in inbox && l in inbox && k.tenant == l.tenant && k.installation == l.installation && inbox[k].event == inbox[l].event ==> k == l
  }

  ghost predicate Decoded(inbox: map<DeliveryKey, Received>, decode: string -> Id) {
    forall l :: l in inbox ==> inbox[l].event == decode(inbox[l].body)
  }

  // The installation has this very event, with this very body.
  ghost predicate OnRecord(inbox: map<DeliveryKey, Received>, k: DeliveryKey, r: Received) {
    exists l :: l in inbox && l.tenant == k.tenant && l.installation == k.installation && inbox[l] == r
  }

  // Its delivery id or its event already stands for another body.
  ghost predicate Clashes(inbox: map<DeliveryKey, Received>, k: DeliveryKey, r: Received) {
    exists l :: Seen(inbox, k, r.event, l) && inbox[l].body != r.body
  }

  // What an arrival was told, as the records have it.
  ghost predicate Holds(inbox: map<DeliveryKey, Received>, decode: string -> Id, a: Arrival, told: Result<()>) {
    var r := Received(decode(a.body), a.body);
    match told
    case Ok(_) => a.granted && OnRecord(inbox, a.key, r)
    case Err(f) => if a.granted then f == Conflict && Clashes(inbox, a.key, r) else f == Unauthenticated
  }

  // One arrival: recorded now, already there, or in the way of another.
  lemma ReceiveCases(inbox: map<DeliveryKey, Received>, decode: string -> Id, a: Arrival, u: map<DeliveryKey, Received>, told: Result<()>)
    requires Decoded(inbox, decode) && (u, told) == Receive(inbox, decode, a)
    ensures u == inbox || (a.key !in inbox && u == inbox[a.key := Received(decode(a.body), a.body)] && forall l :: !Seen(inbox, a.key, decode(a.body), l))
    ensures Decoded(u, decode)
    ensures Holds(u, decode, a, told)
  {
    assert a.key in inbox ==> Seen(inbox, a.key, decode(a.body), a.key);
    if a.granted && !exists l :: Seen(inbox, a.key, decode(a.body), l) {
      assert u[a.key] == Received(decode(a.body), a.body);
    }
  }

  lemma RecordingKeepsOnce(inbox: map<DeliveryKey, Received>, k: DeliveryKey, r: Received)
    requires OncePerEvent(inbox) && forall l :: !Seen(inbox, k, r.event, l)
    ensures OncePerEvent(inbox[k := r])
  {
    forall l | l in inbox && l.tenant == k.tenant && l.installation == k.installation
      ensures inbox[l].event != r.event
    {
      assert !Seen(inbox, k, r.event, l);
    }
  }

  lemma HoldsLater(inbox: map<DeliveryKey, Received>, u: map<DeliveryKey, Received>, decode: string -> Id, a: Arrival, told: Result<()>)
    requires (forall l :: l in inbox ==> l in u && u[l] == inbox[l]) && Holds(inbox, decode, a, told)
    ensures Holds(u, decode, a, told)
  {
    var r := Received(decode(a.body), a.body);
    if OnRecord(inbox, a.key, r) {
      var l :| l in inbox && l.tenant == a.key.tenant && l.installation == a.key.installation && inbox[l] == r;
      assert l in u;
    }
    if Clashes(inbox, a.key, r) {
      var l :| Seen(inbox, a.key, r.event, l) && inbox[l].body != r.body;
      assert Seen(u, a.key, r.event, l);
    }
  }

  // Whatever arrives, in any order and however often: per installation each event is
  // recorded under one delivery only. An arrival that was accepted is on record with its
  // event and body, for good; a genuine one that was refused names a delivery or an event
  // that stands for another body.
  lemma {:induction false} EachEventIsRecordedOnce(decode: string -> Id, arrivals: seq<Arrival>)
    ensures OncePerEvent(ReceiveAll(decode, arrivals)) && Decoded(ReceiveAll(decode, arrivals), decode)
    ensures forall i :: 0 <= i < |arrivals| ==> Holds(ReceiveAll(decode, arrivals), decode, arrivals[i], Told(decode, arrivals, i))
  {
    hide Receive, OncePerEvent, Decoded, Holds;
    if arrivals == [] {
      NothingRecorded(decode);
    } else {
      var n := |arrivals| - 1;
      var rest, a := arrivals[..n], arrivals[n];
      var before := ReceiveAll(decode, rest);
      var (inbox, told) := Receive(before, decode, a);
      EachEventIsRecordedOnce(decode, rest);
      ReceiveCases(before, decode, a, inbox, told);
      if inbox != before {
        RecordingKeepsOnce(before, a.key, Received(decode(a.body), a.body));
      }
      forall i | 0 <= i < n
        ensures Holds(inbox, decode, arrivals[i], Told(decode, arrivals, i))
      {
        assert rest[..i] == arrivals[..i] && rest[i] == arrivals[i];
        assert Told(decode, rest, i) == Told(decode, arrivals, i);
        HoldsLater(before, inbox, decode, rest[i], Told(decode, rest, i));
      }
      assert Told(decode, arrivals, n) == told;
    }
  }

  lemma NothingRecorded(decode: string -> Id)
    ensures OncePerEvent(map[]) && Decoded(map[], decode)
  {
  }
}
