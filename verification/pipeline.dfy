// The whole payment path as one state machine: the reference app, the platform,
// the broker log and the consumer. A step carries every choice the environment
// makes, including which effects survive a crash.
module Pipeline {
  import opened Base
  import opened Events
  import opened RemoteApp
  import opened CapabilityTables
  import opened CoreInbox
  import opened PaymentHistory
  import Callbacks
  import Outbox

  datatype InstallationKey = InstallationKey(tenant: Id, installation: Id)

  // `simulated` holds the installations that run on the local simulator; all the
  // others run on the reference app. A profile never changes.
  datatype Sys = Sys(simulated: set<InstallationKey>, app: App, platform: Platform, log: seq<Message>, core: Core)

  // Idempotency key the platform derives for the app; the hash is injective, so
  // the hashed text stands for it.
  function DerivedKey(tenant: Id, ins: Id, actor: Id, key: string): string {
    tenant + ":" + ins + ":" + actor + ":" + key
  }

  // The checks the remote client runs on a 200 answer.
  predicate Plausible(ins: Id, cap: Capability, req: Request, a: Response) {
    && a.capability == cap && a.operation == req.operation && a.installation == ins && a.simulation
    && a.resource.Some? && a.rates == [] && cap.PaymentV1?
    && (var r := a.resource.value;
        && Token(r.id) && Token(r.reference) && ValidMoney(r.amountMinor, r.currency) && Rank(r.status) != 0
        && (req.operation.Create? ==> r.reference == req.reference && r.amountMinor == req.amountMinor && r.status.Authorized?)
        && (req.resource != "" ==> r.id == req.resource)
        && (req.operation.Capture? ==> r.status.Captured?)
        && (req.operation.Refund? ==> r.status.Refunded?))
  }

  function RemoteAnswer(ins: Id, cap: Capability, req: Request, a: Response): Result<Answer> {
    if Plausible(ins, cap, req, a) then Ok(Answer(a.resource, [])) else Err(Unavailable)
  }

  // The local simulator on either capability.
  function Simulate(cap: Capability, req: Request, current: Option<Snapshot>, newId: Id): Result<Answer> {
    match cap
    case PaymentV1 =>
      (match SimulatePayment(req, current, newId)
       case Err(f) => Err(f)
       case Ok(r) => Ok(Answer(Some(r), [])))
    case ShippingV1 => SimulateShipping(req, current, newId)
    case OtherCapability(_) => Err(Invalid)
  }

  function SimulateShipping(r: Request, current: Option<Snapshot>, newId: Id): Result<Answer> {
    if r.amountMinor != 0 || r.currency != "" then Err(Invalid)
    else if r.operation.Track? then
      if r.resource == "" || r.reference != "" || r.weightGrams != 0 || r.destinationZone != "" then Err(Invalid)
      else if current.None? then Err(NotFound)
      else Ok(Answer(current, []))
    else if r.resource != "" || r.weightGrams <= 0 || r.weightGrams > 30000 || r.destinationZone !in ["ID-JKT", "ID-BDG", "ID-SBY"] then Err(Invalid)
    else
      var amount := 5000 + ((r.weightGrams + 999) / 1000) * 1000;
      if r.operation.GetRates? && r.reference == "" then Ok(Answer(None, [Rate("standard-simulation", amount, "IDR")]))
      else if r.operation.Create? && Token(r.reference) then
        Ok(Answer(Some(Snapshot(newId, r.reference, Unrecognized("created"), amount, "IDR", 0)), []))
      else Err(Invalid)
  }

  datatype Step =
    // The app runs any request: from the platform, late, or a local simulation.
    | AppExecutes(granted: bool, inv: Invocation, newId: Id, delivery: Id, now: int)
    // The platform handles one queued callback body; may repeat, in any order.
    | CallbackReceived(delivery: Id, correlation: string, event: Id, now: int)
    // The app records how a delivery attempt went.
    | CallbackSettled(delivery: Id, granted: bool, reply: Callbacks.Reply, now: int)
    // The platform commits an invocation on a recorded app response, old or new.
    | RemoteInvoked(user: Id, tenant: Id, ins: Id, key: string, correlation: string, req: Request, status: Id, invoked: Id, now: int)
    | SimulatorInvoked(user: Id, tenant: Id, ins: Id, cap: Capability, key: string, correlation: string, req: Request, newId: Id, status: Id, invoked: Id, now: int)
    // One outbox attempt. `landed`: the broker stored the message. `committed`:
    // the bookkeeping transaction survived.
    | EventAttempted(event: Id, publish: Outbox.Publish, landed: bool, committed: bool, now: int)
    | EventReplayed(event: Id, now: int)
    // The consumer takes (again) the message at a log position.
    | MessageConsumed(position: nat, committed: bool)

  // A new random id: used by no payment and no resource row.
  predicate Unused(s: Sys, id: Id) {
    && Token(id)
    && (forall k :: k in s.app.resources ==> k.id != id)
    && (forall k :: k in s.platform.resources ==> k.id != id)
  }

  predicate Named(tenant: Id, ins: Id) {
    Token(tenant) && Token(ins)
  }

  // May this choice happen in this state at all?
  predicate Enabled(s: Sys, step: Step) {
    match step
    case AppExecutes(_, inv, newId, _, _) =>
      Named(inv.tenant, inv.installation) && InstallationKey(inv.tenant, inv.installation) !in s.simulated && Unused(s, newId)
    case CallbackReceived(delivery, _, _, _) =>
      delivery in s.app.callbacks && Authentic(s.app.callbacks[delivery])
    case CallbackSettled(delivery, _, reply, now) =>
      && delivery in s.app.callbacks && Callbacks.Due(s.app.callbacks[delivery], now)
      && (reply.Accepted? ==> Reported(s, delivery))
    case RemoteInvoked(user, tenant, ins, key, _, req, _, _, _) =>
      InstallationKey(tenant, ins) !in s.simulated && Answered(s, Call(user, tenant, ins, key, req))
    case SimulatorInvoked(_, tenant, ins, _, _, _, _, newId, _, _, _) =>
      Named(tenant, ins) && InstallationKey(tenant, ins) in s.simulated && Unused(s, newId)
    case EventAttempted(event, publish, landed, _, now) =>
      && event in s.platform.events && Outbox.Due(s.platform.events[event], now)
      && (landed ==> Outbox.Publishable(event, s.platform.events[event]))
      && (publish.Acked? && Outbox.Publishable(event, s.platform.events[event])
          ==> landed || Posted(s.platform.events[event].envelope) in s.log)
    case EventReplayed(event, _) => event in s.platform.events
    case MessageConsumed(position, _) => position < |s.log| && s.log[position].raw.Encoded?
  }

  // What the platform demands of a signed callback body before it opens a transaction.
  predicate Authentic(c: Callback) {
    ValidStatus(StatusOf(c.installation, c.body.resource, c.body.resource.revision))
  }

  predicate Reported(s: Sys, delivery: Id)
    requires delivery in s.app.callbacks
  {
    var c := s.app.callbacks[delivery];
    CallbackKey(c.tenant, c.installation, delivery) in s.platform.inbox
  }

  function Call(user: Id, tenant: Id, ins: Id, key: string, req: Request): Invocation {
    Invocation(tenant, ins, PaymentV1, DerivedKey(tenant, ins, user, key), req)
  }

  // The app has recorded a response to exactly this invocation.
  predicate Answered(s: Sys, inv: Invocation) {
    var key := RequestKey(inv.tenant, inv.installation, inv.key);
    key in s.app.idempotency && s.app.idempotency[key].hash == inv
  }

  function Next(s: Sys, step: Step): Sys {
    if !Enabled(s, step) then s
    else
      match step
      case AppExecutes(granted, inv, newId, delivery, now) =>
        s.(app := RemoteApp.Execute(s.app, granted, inv, newId, delivery, now).0)
      case CallbackReceived(delivery, correlation, event, now) =>
        var c := s.app.callbacks[delivery];
        s.(platform := ApplyCallback(s.platform, c.tenant, c.installation, delivery, c.body, correlation, event, now).0)
      case CallbackSettled(delivery, granted, reply, now) =>
        s.(app := s.app.(callbacks := s.app.callbacks[delivery := Callbacks.Attempt(s.app.callbacks[delivery], granted, reply, now)]))
      case RemoteInvoked(user, tenant, ins, key, correlation, req, status, invoked, now) =>
        s.(platform := InvokeRemote(s, user, tenant, ins, key, correlation, req, status, invoked, now).0)
      case SimulatorInvoked(user, tenant, ins, cap, key, correlation, req, newId, status, invoked, now) =>
        s.(platform := CapabilityTables.Execute(s.platform, user, tenant, cap, ins, key, correlation, req, current => Simulate(cap, req, current, newId), status, invoked, now).0)
      case EventAttempted(event, publish, landed, committed, now) =>
        var row := s.platform.events[event];
        s.(log := if landed then s.log + [Posted(row.envelope)] else s.log,
           platform := if committed then s.platform.(events := s.platform.events[event := Outbox.Attempt(event, row, publish, now)]) else s.platform)
      case EventReplayed(event, now) =>
        (match Outbox.Replay(s.platform.events[event], now)
         case Err(_) => s
         case Ok(row) => s.(platform := s.platform.(events := s.platform.events[event := row])))
      case MessageConsumed(position, committed) =>
        var m := s.log[position];
        if committed then s.(core := CoreInbox.Apply(s.core, m.raw.envelope.tenant, position + 1, m).0) else s
  }

  function InvokeRemote(s: Sys, user: Id, tenant: Id, ins: Id, key: string, correlation: string, req: Request, status: Id, invoked: Id, now: int): (Platform, Result<Response>)
    requires Answered(s, Call(user, tenant, ins, key, req))
  {
    var inv := Call(user, tenant, ins, key, req);
    var answer := s.app.idempotency[RequestKey(tenant, ins, inv.key)].response;
    CapabilityTables.Execute(s.platform, user, tenant, PaymentV1, ins, key, correlation, req, _ => RemoteAnswer(ins, PaymentV1, req, answer), status, invoked, now)
  }

  function Run(s: Sys, steps: seq<Step>): Sys {
    if steps == [] then s else Next(Run(s, steps[..|steps| - 1]), steps[|steps| - 1])
  }

  // ---------------------------------------------------------------- invariants

  // `r` is a state the app's payment really went through. Revision and rank move
  // together, so one number fixes the other along a payment's history.
  ghost predicate Genuine(resources: map<AppKey, Snapshot>, tenant: Id, ins: Id, r: Snapshot) {
    var k := AppKey(tenant, ins, r.id);
    && k in resources && ValidPayment(r) && SameIdentity(r, resources[k])
    && r.revision <= resources[k].revision
    && Rank(r.status) - r.revision == Rank(resources[k].status) - resources[k].revision
  }

  ghost predicate AppRows(resources: map<AppKey, Snapshot>) {
    && (forall k :: k in resources ==> resources[k].id == k.id && ValidPayment(resources[k]) && Named(k.tenant, k.installation) && resources[k].revision <= Rank(resources[k].status))
    && (forall k, l :: k in resources && l in resources && k.id == l.id ==> k == l)
  }

  ghost predicate AppRecords(a: App) {
    forall q :: q in a.idempotency && a.idempotency[q].response.resource.Some?
                ==> Genuine(a.resources, q.tenant, q.installation, a.idempotency[q].response.resource.value)
  }

  ghost predicate AppQueue(a: App) {
    forall d :: d in a.callbacks
                ==> Genuine(a.resources, a.callbacks[d].tenant, a.callbacks[d].installation, a.callbacks[d].body.resource)
                    && a.callbacks[d].body.resource.revision >= 1
  }

  ghost predicate Announces(c: Callback, k: AppKey, r: Snapshot) {
    c.tenant == k.tenant && c.installation == k.installation && c.body.resource == r
  }

  // The state a payment is in now has a callback, whatever became of it.
  ghost predicate AppAnnounced(a: App) {
    forall k :: k in a.resources && a.resources[k].revision >= 1
                ==> exists d :: d in a.callbacks && Announces(a.callbacks[d], k, a.resources[k])
  }

  ghost predicate AppInv(a: App) {
    AppRows(a.resources) && AppRecords(a) && AppQueue(a) && AppAnnounced(a)
  }

  // From one table of payments to a later one.
  ghost predicate Evolves(a: map<AppKey, Snapshot>, b: map<AppKey, Snapshot>) {
    forall k :: k in a ==>
      && k in b && SameIdentity(a[k], b[k]) && a[k].revision <= b[k].revision
      && Rank(a[k].status) - a[k].revision == Rank(b[k].status) - b[k].revision
  }
}
