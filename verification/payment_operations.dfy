// What an operation does to a payment and what a shipment costs: the simulator that the
// reference app and the platform share, seen from its callers.
module PaymentOperations {
  import opened Base
  import opened Events
  import opened RemoteApp
  import opened CapabilityTables
  import opened Pipeline
  import opened PipelineApp
  import PaymentHistory

  // --------------------------------------------------------------- payments of the app

  // A request about a payment says nothing else; a create names no payment.
  predicate AsksAbout(r: Request) {
    r.resource != "" && r.reference == "" && r.currency == "" && r.amountMinor == 0 && r.weightGrams == 0 && r.destinationZone == ""
  }

  predicate AsksForNew(r: Request) {
    r.operation.Create? && r.resource == "" && Token(r.reference) && r.currency == "IDR" && 0 < r.amountMinor <= 1_000_000_000_000 && r.weightGrams == 0 && r.destinationZone == ""
  }

  // Where an operation takes a payment: an authorized one is captured, a captured one
  // refunded; what is already so stays so; nothing else moves.
  function Moved(operation: Operation, c: Snapshot): Option<Snapshot> {
    match operation
    case Capture => if c.status.Authorized? then Some(c.(status := Captured, revision := c.revision + 1)) else if c.status.Captured? then Some(c) else None
    case Refund => if c.status.Captured? then Some(c.(status := Refunded, revision := c.revision + 1)) else if c.status.Refunded? then Some(c) else None
    case CheckStatus => Some(c)
    case _ => None
  }

  // The tables once `r` was the answer: stored, on record, and reported if it is new or
  // its status moved.
  ghost predicate Leaves(a: App, b: App, inv: Invocation, r: Snapshot, delivery: Id, now: int) {
    var at, key := AppKey(inv.tenant, inv.installation, r.id), RequestKey(inv.tenant, inv.installation, inv.key);
    && b.resources == a.resources[at := r]
    && b.idempotency == a.idempotency[key := Record(inv, Response(inv.capability, inv.request.operation, inv.installation, true, Some(r), []))]
    && b.callbacks == (if at in a.resources && a.resources[at].status == r.status then a.callbacks
                       else a.callbacks[delivery := Callback(inv.tenant, inv.installation, Update(r, now), Pending, 0, now, now)])
  }

  // What a first request of a granted caller finds, in the caller's own terms.
  ghost predicate ActsAsAsked(a: App, b: App, inv: Invocation, newId: Id, delivery: Id, now: int, answer: Result<Response>) {
    var q, at := inv.request, AppKey(inv.tenant, inv.installation, inv.request.resource);
    if AsksForNew(q) then answer.Ok? && Leaves(a, b, inv, Snapshot(newId, q.reference, Authorized, q.amountMinor, "IDR", 1), delivery, now)
    else if q.resource != "" && at !in a.resources then answer == Err(NotFound)
    else if !AsksAbout(q) || !(q.operation.Capture? || q.operation.Refund? || q.operation.CheckStatus?) then answer == Err(Invalid)
    else if Moved(q.operation, a.resources[at]).None? then answer == Err(Conflict)
    else answer.Ok? && Leaves(a, b, inv, Moved(q.operation, a.resources[at]).value, delivery, now)
  }

  // Every request, the refused ones included.
  ghost predicate Served(a: App, b: App, granted: bool, inv: Invocation, newId: Id, delivery: Id, now: int, answer: Result<Response>) {
    var key := RequestKey(inv.tenant, inv.installation, inv.key);
    && (!granted ==> answer == Err(Unauthenticated))
    && (granted && key in a.idempotency ==> answer == if a.idempotency[key].hash == inv then Ok(a.idempotency[key].response) else Err(Conflict))
    && (granted && key !in a.idempotency && inv.capability.PaymentV1? && delivery !in a.callbacks && NewToApp(a, newId) ==> ActsAsAsked(a, b, inv, newId, delivery, now, answer))
    && (granted && key !in a.idempotency && !inv.capability.PaymentV1? ==> answer == Err(Forbidden) || answer == Err(NotFound))
    && (answer.Err? || key in a.idempotency ==> b == a)
    && (answer.Ok? ==> key in b.idempotency && b.idempotency[key] == Record(inv, answer.value))
  }

  lemma SimulatorMoves(r: Request, current: Option<Snapshot>, newId: Id)
    ensures AsksForNew(r) ==> SimulatePayment(r, current, newId) == Ok(Snapshot(newId, r.reference, Authorized, r.amountMinor, "IDR", 1))
    ensures r.operation.Create? && !AsksForNew(r) ==> SimulatePayment(r, current, newId) == Err(Invalid)
    ensures !r.operation.Create? && !AsksAbout(r) ==> SimulatePayment(r, current, newId) == Err(Invalid)
    ensures !r.operation.Create? && AsksAbout(r) && current.None? ==> SimulatePayment(r, current, newId) == Err(NotFound)
    ensures !r.operation.Create? && AsksAbout(r) && current.Some? ==>
              SimulatePayment(r, current, newId) ==
              if !r.operation.Capture? && !r.operation.Refund? && !r.operation.CheckStatus? then Err(Invalid)
              else if Moved(r.operation, current.value).None? then Err(Conflict)
              else Ok(Moved(r.operation, current.value).value)
  {
    hide Token;
  }

  // The app does what it is asked: whatever the request, the answer and the tables are
  // those of the operation on the payment it found.
  lemma RequestsActAsAsked(a: App, granted: bool, inv: Invocation, newId: Id, delivery: Id, now: int)
    requires AppRows(a.resources)
    ensures var (b, answer) := RemoteApp.Execute(a, granted, inv, newId, delivery, now);
            Served(a, b, granted, inv, newId, delivery, now, answer)
  {
    hide SimulatePayment, PaymentHistory.ValidPayment, Token;
    var q, at := inv.request, AppKey(inv.tenant, inv.installation, inv.request.resource);
    SimulatorMoves(q, if q.resource != "" && at in a.resources then Some(a.resources[at]) else None, newId);
  }

  // An operation never takes a payment back, its revision counts exactly the moves, and
  // asking for the same again moves nothing.
  lemma MovesCount(operation: Operation, c: Snapshot)
    requires Moved(operation, c).Some?
    ensures var r := Moved(operation, c).value;
            && r.revision - c.revision == Rank(r.status) - Rank(c.status) && r.revision >= c.revision && SameIdentity(c, r)
            && (r.status == c.status <==> r == c) && Moved(operation, r) == Some(r)
  {
  }

  // ------------------------------------------------------------------ the local simulator

  // Payments of the local simulator move as those of the app.
  lemma LocalPaymentsMoveAlike(r: Request, current: Option<Snapshot>, newId: Id)
    ensures var answer := Simulate(PaymentV1, r, current, newId);
            if AsksForNew(r) then answer == Ok(Answer(Some(Snapshot(newId, r.reference, Authorized, r.amountMinor, "IDR", 1)), []))
            else if !AsksAbout(r) || r.operation.Create? then answer == Err(Invalid)
            else if current.None? then answer == Err(NotFound)
            else if !r.operation.Capture? && !r.operation.Refund? && !r.operation.CheckStatus? then answer == Err(Invalid)
            else if Moved(r.operation, current.value).None? then answer == Err(Conflict)
            else answer == Ok(Answer(Some(Moved(r.operation, current.value).value), []))
  {
    hide SimulatePayment, Token;
    SimulatorMoves(r, current, newId);
  }

  predicate Shippable(r: Request) {
    r.resource == "" && r.amountMinor == 0 && r.currency == "" && 0 < r.weightGrams <= 30000 && (r.destinationZone == "ID-JKT" || r.destinationZone == "ID-BDG" || r.destinationZone == "ID-SBY")
  }

  // 5000, and 1000 for every kilogram begun.
  ghost predicate Costs(weightGrams: int, amount: int) {
    exists kilos :: 1000 * (kilos - 1) < weightGrams <= 1000 * kilos && amount == 5000 + 1000 * kilos
  }

  lemma OnePrice(weightGrams: int, a: int, b: int)
    requires Costs(weightGrams, a) && Costs(weightGrams, b)
    ensures a == b
  {
  }

  // What a shipment costs and when it is refused; a shipment that exists is shown as it is.
  lemma ShippingAnswers(r: Request, current: Option<Snapshot>, newId: Id)
    ensures var answer := Simulate(ShippingV1, r, current, newId);
            if r.operation.Track? then
              answer == if r.resource == "" || r.reference != "" || r.currency != "" || r.amountMinor != 0 || r.weightGrams != 0 || r.destinationZone != "" then Err(Invalid)
                        else if current.None? then Err(NotFound) else Ok(Answer(current, []))
            else if Shippable(r) && r.operation.GetRates? && r.reference == "" then
              answer.Ok? && answer.value.resource.None? && |answer.value.rates| == 1 && answer.value.rates[0] == Rate("standard-simulation", answer.value.rates[0].amountMinor, "IDR")
              && Costs(r.weightGrams, answer.value.rates[0].amountMinor)
            else if Shippable(r) && r.operation.Create? && Token(r.reference) then
              answer.Ok? && answer.value.rates == [] && answer.value.resource.Some?
              && (var made := answer.value.resource.value;
                  made == Snapshot(newId, r.reference, Unrecognized("created"), made.amountMinor, "IDR", 0) && Costs(r.weightGrams, made.amountMinor))
            else answer == Err(Invalid)
  {
    hide Token;
    if Shippable(r) {
      var kilos := (r.weightGrams + 999) / 1000;
      assert 1000 * (kilos - 1) < r.weightGrams <= 1000 * kilos;
    }
  }

  // What is quoted is what is charged, for any two requests of one weight.
  lemma QuotedIsCharged(quote: Request, order: Request, current: Option<Snapshot>, newId: Id)
    requires quote.operation.GetRates? && order.operation.Create? && quote.weightGrams == order.weightGrams
    requires Simulate(ShippingV1, quote, None, newId).Ok? && Simulate(ShippingV1, order, current, newId).Ok?
    ensures var q, o := Simulate(ShippingV1, quote, None, newId).value, Simulate(ShippingV1, order, current, newId).value;
            |q.rates| == 1 && o.resource.Some? && o.resource.value.amountMinor == q.rates[0].amountMinor
  {
    hide Simulate, Costs, Token;
    ShippingAnswers(quote, None, newId);
    ShippingAnswers(order, current, newId);
    OnePrice(quote.weightGrams, Simulate(ShippingV1, quote, None, newId).value.rates[0].amountMinor, Simulate(ShippingV1, order, current, newId).value.resource.value.amountMinor);
  }

  // ---------------------------------------------------------------------- invocations

  // The platform shows a runtime only what the installation owns under this capability,
  // passes its refusal on, and records exactly what it answers.
  lemma InvocationsAnswer(p: Platform, user: Id, tenant: Id, cap: Capability, ins: Id, key: string, correlation: string,
                          req: Request, run: Option<Snapshot> -> Result<Answer>, status: Id, invoked: Id, now: int, q: Platform, r: Result<Response>)
    requires (q, r) == CapabilityTables.Execute(p, user, tenant, cap, ins, key, correlation, req, run, status, invoked, now)
    requires InvocationKey(tenant, user, key) !in p.receipts
    ensures var at := ResourceKey(tenant, req.resource);
            var owned := at in p.resources && p.resources[at].installation == ins && p.resources[at].capability == cap;
            var answer := run(if req.resource == "" then None else if owned then Some(p.resources[at].data) else None);
            && (req.resource != "" && !owned ==> r == Err(NotFound))
            && (req.resource == "" || owned ==> (answer.Err? ==> r == Err(answer.fault)))
            && (r.Ok? ==>
                  && answer.Ok? && q.receipts == p.receipts[InvocationKey(tenant, user, key) := Receipt(InvocationHash(ins, cap, req), r.value)]
                  && r.value == Response(cap, req.operation, ins, true, r.value.resource, answer.value.rates)
                  && (r.value.resource.Some? <==> answer.value.resource.Some?)
                  && (answer.value.resource.Some? ==>
                        var stored := ResourceKey(tenant, answer.value.resource.value.id);
                        stored in q.resources && r.value.resource == Some(if cap.PaymentV1? then q.resources[stored].data else answer.value.resource.value)))
  {
    hide SavePayment, NewRow;
    var c := Current(p, tenant, ins, cap, req.resource);
    if cap.PaymentV1? && c.Ok? && run(c.value).Ok? && run(c.value).value.resource.Some? {
      SavedIsStored(p, tenant, ins, user, correlation, run(c.value).value.resource.value, status, now);
    }
  }

  lemma SavedIsStored(p: Platform, tenant: Id, ins: Id, actor: Id, correlation: string, next: Snapshot, event: Id, now: int)
    ensures var saved := SavePayment(p, tenant, ins, actor, correlation, next, event, now);
            saved.Ok? ==>
              && saved.value.0.receipts == p.receipts && ResourceKey(tenant, next.id) in saved.value.0.resources
              && saved.value.0.resources[ResourceKey(tenant, next.id)].data == saved.value.1
  {
  }

  // A callback is answered by what the platform has: one that came before by its record,
  // one about a payment that is not this installation's by NotFound, and any other by what
  // becomes of the payment; only the last kind changes anything.
  lemma CallbacksAnswer(p: Platform, tenant: Id, ins: Id, delivery: Id, u: Update, correlation: string, event: Id, now: int, q: Platform, r: Result<Outcome>)
    requires (q, r) == ApplyCallback(p, tenant, ins, delivery, u, correlation, event, now)
    ensures var at, key := CallbackKey(tenant, ins, delivery), ResourceKey(tenant, u.resource.id);
            var owned := key in p.resources && p.resources[key].installation == ins && p.resources[key].capability == PaymentV1;
            if at in p.inbox then q == p && r == if p.inbox[at].body == u then Ok(Duplicate) else Err(Conflict)
            else if !owned then q == p && r == Err(NotFound)
            else
              && r != Err(NotFound) && (r.Err? ==> q == p)
              && (r.Ok? ==> q.inbox == p.inbox[at := Received(u, r.value)] && r.value != Duplicate && key in q.resources && SameMoney(p.resources[key].data, u.resource))
              && (r.Ok? && !r.value.Stale? ==> q.resources[key].data == u.resource)
              && (r == Ok(Stale) ==> q.resources == p.resources && u.resource.revision < p.resources[key].data.revision)
  {
    hide Token, ValidMoney, NewRow;
  }
}
