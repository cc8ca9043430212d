// The reference app: payments it owns, its request idempotency table and the
// queue of status callbacks it still has to report to the platform.
module RemoteApp {
  import opened Base
  import opened Events

  datatype Capability = PaymentV1 | ShippingV1 | OtherCapability(name: string)

  datatype Operation = Create | Capture | Refund | CheckStatus | GetRates | Track | OtherOperation(name: string)

  datatype Request = Request(
    operation: Operation, resource: Id, reference: string, amountMinor: int, currency: string,
    weightGrams: int, destinationZone: string)

  // A payment (or shipment) as an app reports it.
  datatype Snapshot = Snapshot(id: Id, reference: string, status: Status, amountMinor: int, currency: string, revision: int)

  datatype Rate = Rate(service: string, amountMinor: int, currency: string)

  datatype Response = Response(
    capability: Capability, operation: Operation, installation: Id, simulation: bool,
    resource: Option<Snapshot>, rates: seq<Rate>)

  datatype Invocation = Invocation(tenant: Id, installation: Id, capability: Capability, key: string, request: Request)

  // The payment branch of the simulator. `newId` is the id a create would use.
  function SimulatePayment(r: Request, current: Option<Snapshot>, newId: Id): Result<Snapshot> {
    if r.weightGrams != 0 || r.destinationZone != "" then Err(Invalid)
    else if r.operation.Create? then
      if r.resource != "" || !Token(r.reference) || !ValidMoney(r.amountMinor, r.currency)
      then Err(Invalid)
      else Ok(Snapshot(newId, r.reference, Authorized, r.amountMinor, r.currency, 1))
    else if r.resource == "" || r.reference != "" || r.currency != "" || r.amountMinor != 0 then Err(Invalid)
    else if current.None? then Err(NotFound)
    else
      match r.operation
      case Capture => Move(current.value, Authorized, Captured)
      case Refund => Move(current.value, Captured, Refunded)
      case CheckStatus => Ok(current.value)
      case _ => Err(Invalid)
  }

  // A status change costs one revision; asking for the status already held costs none.
  function Move(c: Snapshot, from: Status, to: Status): Result<Snapshot> {
    if c.status == from then Ok(c.(status := to, revision := c.revision + 1))
    else if c.status == to then Ok(c)
    else Err(Conflict)
  }

  datatype AppKey = AppKey(tenant: Id, installation: Id, id: Id)
  datatype RequestKey = RequestKey(tenant: Id, installation: Id, key: string)

  // The request hash is injective, so the hashed invocation stands for it.
  datatype Record = Record(hash: Invocation, response: Response)

  datatype Update = Update(resource: Snapshot, occurredAt: int)

  datatype QueueStatus = Pending | Delivered | Dead | Cancelled

  datatype Callback = Callback(
    tenant: Id, installation: Id, body: Update, status: QueueStatus, attempts: nat, nextAt: int, createdAt: int)

  datatype App = App(
    resources: map<AppKey, Snapshot>,
    idempotency: map<RequestKey, Record>,
    callbacks: map<Id, Callback>)

  // One committed (or rolled back) run of the app's execute. `granted` says that
  // the caller's grant is still valid; `newId` and `delivery` are new ids.
  function Execute(s: App, granted: bool, inv: Invocation, newId: Id, delivery: Id, now: int): (App, Result<Response>) {
    var key := RequestKey(inv.tenant, inv.installation, inv.key);
    var at := AppKey(inv.tenant, inv.installation, inv.request.resource);
    if !granted then (s, Err(Unauthenticated))
    else if key in s.idempotency then
      (s, if s.idempotency[key].hash == inv then Ok(s.idempotency[key].response) else Err(Conflict))
    else if inv.request.resource != "" && at !in s.resources then (s, Err(NotFound))
    else
      var current := if inv.request.resource != "" then Some(s.resources[at]) else None;
      match Simulated(inv, current, newId)
      case Err(f) => (s, Err(f))
      case Ok(r) =>
        var response := Response(inv.capability, inv.request.operation, inv.installation, true, Some(r), []);
        var announce := current.None? || current.value.status != r.status;
        if announce && delivery in s.callbacks then (s, Err(Unavailable))
        else
          (App(s.resources[AppKey(inv.tenant, inv.installation, r.id) := r],
               s.idempotency[key := Record(inv, response)],
               if announce
               then s.callbacks[delivery := Callback(inv.tenant, inv.installation, Update(r, now), Pending, 0, now, now)]
               else s.callbacks),
           Ok(response))
  }

  // The handler lets only payment/v1 reach the simulator.
  function Simulated(inv: Invocation, current: Option<Snapshot>, newId: Id): Result<Snapshot> {
    if inv.capability.PaymentV1? then SimulatePayment(inv.request, current, newId) else Err(Forbidden)
  }
}
