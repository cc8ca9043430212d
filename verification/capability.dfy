// The platform's capability tables: resources, the transactional outbox, the
// callback inbox and the invocation receipts.
module CapabilityTables {
  import opened Base
  import opened Events
  import opened RemoteApp

  datatype ResourceKey = ResourceKey(tenant: Id, id: Id)

  datatype Row = Row(installation: Id, capability: Capability, data: Snapshot, statusRevision: int)

  // One outbox row: an immutable envelope and its delivery bookkeeping.
  datatype OutboxRow = OutboxRow(
    tenant: Id, envelope: Envelope, attempts: nat, nextAt: int, occurredAt: int,
    published: bool, dead: bool)

  function NewRow(e: Envelope): OutboxRow {
    OutboxRow(e.tenant, e, 0, e.occurredAt, e.occurredAt, false, false)
  }

  datatype CallbackKey = CallbackKey(tenant: Id, installation: Id, delivery: Id)

  datatype Outcome = Applied | Unchanged | Stale | Duplicate

  // The body hash is injective, so the update stands for it.
  datatype Received = Received(body: Update, outcome: Outcome)

  datatype InvocationKey = InvocationKey(tenant: Id, actor: Id, key: string)
  datatype InvocationHash = InvocationHash(installation: Id, capability: Capability, request: Request)
  datatype Receipt = Receipt(hash: InvocationHash, response: Response)

  datatype Platform = Platform(
    resources: map<ResourceKey, Row>,
    events: map<Id, OutboxRow>,
    inbox: map<CallbackKey, Received>,
    receipts: map<InvocationKey, Receipt>)

  // What a runtime answers: a resource, or rates.
  datatype Answer = Answer(resource: Option<Snapshot>, rates: seq<Rate>)

  function StatusOf(installation: Id, r: Snapshot, revision: int): StatusEvent {
    StatusEvent(r.id, installation, r.reference, r.status, r.amountMinor, r.currency, revision, true)
  }

  predicate SameMoney(a: Snapshot, b: Snapshot) {
    a.reference == b.reference && a.amountMinor == b.amountMinor && a.currency == b.currency
  }

  predicate SameIdentity(a: Snapshot, b: Snapshot) {
    a.id == b.id && SameMoney(a, b)
  }

  // savePayment on one row: what the row becomes when `next` arrives from
  // installation `ins`, and how the arrival is classified.
  function Fold(prior: Option<Row>, ins: Id, next: Snapshot): Result<(Row, Outcome)> {
    if prior.Some? && (!prior.value.capability.PaymentV1? || prior.value.installation != ins || !SameMoney(prior.value.data, next)) then Err(Conflict)
    else if prior.Some? && next.revision < prior.value.data.revision then Ok((prior.value, Stale))
    else if prior.Some? && next.revision == prior.value.data.revision && next.status != prior.value.data.status then Err(Conflict)
    else if prior.Some? && Rank(next.status) < Rank(prior.value.data.status) then Err(Conflict)
    else
      var changed := prior.None? || prior.value.data.status != next.status || prior.value.statusRevision == 0;
      var revision := (if prior.Some? then prior.value.statusRevision else 0) + (if changed then 1 else 0);
      if !ValidStatus(StatusOf(ins, next, revision)) then Err(Invalid)
      else Ok((Row(ins, PaymentV1, next, revision), if changed then Applied else Unchanged))
  }

  function Find<K, V>(m: map<K, V>, k: K): Option<V> {
    if k in m then Some(m[k]) else None
  }

  // savePayment as a transaction step: the row, and one status event when the
  // status changed. `event` is the id the event would get.
  function SavePayment(p: Platform, tenant: Id, ins: Id, actor: Id, correlation: string, next: Snapshot, event: Id, now: int): Result<(Platform, Snapshot, Outcome)> {
    var key := ResourceKey(tenant, next.id);
    match Fold(Find(p.resources, key), ins, next)
    case Err(f) => Err(f)
    case Ok((row, Stale)) => Ok((p, row.data, Stale))
    case Ok((row, Applied)) =>
      if event in p.events then Err(Unavailable)
      else
        var e := NewEvent(event, PaymentStatusChanged, now, tenant, actor, next.id, correlation, Payment(StatusOf(ins, next, row.statusRevision)));
        Ok((p.(resources := p.resources[key := row], events := p.events[event := NewRow(e)]), next, Applied))
    case Ok((row, outcome)) => Ok((p.(resources := p.resources[key := row]), next, outcome))
  }

  predicate Owns(p: Platform, tenant: Id, ins: Id, cap: Capability, id: Id) {
    var key := ResourceKey(tenant, id);
    key in p.resources && p.resources[key].installation == ins && p.resources[key].capability == cap
  }

  // One signed callback, deduplicated by delivery id.
  function ApplyCallback(p: Platform, tenant: Id, ins: Id, delivery: Id, u: Update, correlation: string, event: Id, now: int): (Platform, Result<Outcome>) {
    var key := CallbackKey(tenant, ins, delivery);
    if key in p.inbox then (p, if p.inbox[key].body == u then Ok(Duplicate) else Err(Conflict))
    else if !Owns(p, tenant, ins, PaymentV1, u.resource.id) then (p, Err(NotFound))
    else
      match SavePayment(p, tenant, ins, "app-callback", correlation, u.resource, event, now)
      case Err(f) => (p, Err(f))
      case Ok((p', _, outcome)) => (p'.(inbox := p'.inbox[key := Received(u, outcome)]), Ok(outcome))
  }

  // The resource the runtime is shown. Err when the request names one that the
  // installation does not own.
  function Current(p: Platform, tenant: Id, ins: Id, cap: Capability, id: Id): Result<Option<Snapshot>> {
    if id == "" then Ok(None)
    else if Owns(p, tenant, ins, cap, id) then Ok(Some(p.resources[ResourceKey(tenant, id)].data))
    else Err(NotFound)
  }

  // One idempotent invocation. `run` is the runtime; it is consulted only when no
  // receipt exists. `status` and `invoked` are the ids of the events it may emit.
  function Execute(p: Platform, user: Id, tenant: Id, cap: Capability, ins: Id, key: string, correlation: string,
                   req: Request, run: Option<Snapshot> -> Result<Answer>, status: Id, invoked: Id, now: int): (Platform, Result<Response>) {
    var at := InvocationKey(tenant, user, key);
    var hash := InvocationHash(ins, cap, req);
    if at in p.receipts then
      (p, if p.receipts[at].hash == hash then Ok(p.receipts[at].response) else Err(Conflict))
    else
      match Current(p, tenant, ins, cap, req.resource)
      case Err(f) => (p, Err(f))
      case Ok(current) =>
        match run(current)
        case Err(f) => (p, Err(f))
        case Ok(answer) =>
          match Store(p, tenant, ins, cap, user, correlation, answer.resource, status, now)
          case Err(f) => (p, Err(f))
          case Ok((p1, resource)) =>
            if invoked in p1.events then (p, Err(Unavailable))
            else
              var response := Response(cap, req.operation, ins, true, resource, answer.rates);
              var e := NewEvent(invoked, CapabilityInvoked, now, tenant, user, ins, correlation, Details("capability,operation"));
              (p1.(events := p1.events[invoked := NewRow(e)], receipts := p1.receipts[at := Receipt(hash, response)]), Ok(response))
  }

  // The resource half of Execute: payments go through savePayment, anything else
  // is upserted unless another installation owns the row.
  function Store(p: Platform, tenant: Id, ins: Id, cap: Capability, user: Id, correlation: string, resource: Option<Snapshot>, status: Id, now: int): Result<(Platform, Option<Snapshot>)> {
    if resource.None? then Ok((p, None))
    else if cap.PaymentV1? then
      match SavePayment(p, tenant, ins, user, correlation, resource.value, status, now)
      case Err(f) => Err(f)
      case Ok((p', stored, _)) => Ok((p', Some(stored)))
    else
      var key := ResourceKey(tenant, resource.value.id);
      if key !in p.resources then
        Ok((p.(resources := p.resources[key := Row(ins, cap, resource.value, 0)]), resource))
      else if p.resources[key].installation == ins then
        Ok((p.(resources := p.resources[key := p.resources[key].(data := resource.value)]), resource))
      else Ok((p, resource))
  }
}
