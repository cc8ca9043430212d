// What app and platform tell each other over any run: the app's recorded answers always
// pass the platform's check, and a callback counts as delivered only when the platform
// has it.
module PipelineReplies {
  import opened Base
  import opened Events
  import opened RemoteApp
  import opened CapabilityTables
  import opened Pipeline
  import opened PipelineTheorems
  import PaymentHistory
  import PipelineRetries
  import Callbacks

  // ----------------------------------------------------------------- recorded answers

  // The answer is to this very request: of its installation and operation, about the
  // payment it named or the one it asked to create, and of the status it asked for.
  ghost predicate Answers(inv: Invocation, a: Response) {
    && a.capability == inv.capability == PaymentV1 && a.operation == inv.request.operation && a.installation == inv.installation && a.simulation && a.rates == []
    && a.resource.Some?
    && (var r := a.resource.value;
        && Token(r.id) && Token(r.reference) && ValidMoney(r.amountMinor, r.currency)
        && match inv.request.operation
           case Create => inv.request.resource == "" && r.status.Authorized? && r.reference == inv.request.reference && r.amountMinor == inv.request.amountMinor && r.currency == inv.request.currency
           case Capture => r.status.Captured? && r.id == inv.request.resource
           case Refund => r.status.Refunded? && r.id == inv.request.resource
           case CheckStatus => !r.status.Unrecognized? && r.id == inv.request.resource
           case _ => false)
  }

  ghost predicate AllAnswer(a: App) {
    forall q :: q in a.idempotency ==> Answers(a.idempotency[q].hash, a.idempotency[q].response)
  }

  lemma SimulatorAnswers(inv: Invocation, current: Option<Snapshot>, newId: Id)
    requires Token(newId) && Simulated(inv, current, newId).Ok?
    requires current.Some? ==> current.value.id == inv.request.resource && PaymentHistory.ValidPayment(current.value)
    ensures Answers(inv, Response(inv.capability, inv.request.operation, inv.installation, true, Some(Simulated(inv, current, newId).value), []))
  {
    hide Token, ValidMoney;
  }

  lemma ExecuteAnswers(a: App, granted: bool, inv: Invocation, newId: Id, delivery: Id, now: int)
    requires AppRows(a.resources) && AllAnswer(a) && Token(newId)
    ensures AllAnswer(RemoteApp.Execute(a, granted, inv, newId, delivery, now).0)
  {
    hide Simulated, Answers, Token, ValidMoney;
    var current := if inv.request.resource != "" && AppKey(inv.tenant, inv.installation, inv.request.resource) in a.resources
                   then Some(a.resources[AppKey(inv.tenant, inv.installation, inv.request.resource)]) else None;
    if Simulated(inv, current, newId).Ok? {
      SimulatorAnswers(inv, current, newId);
    }
  }

  lemma NextAnswers(s: Sys, step: Step)
    requires Inv(s) && AllAnswer(s.app)
    ensures AllAnswer(Next(s, step).app)
  {
    hide AllAnswer, AppRecords, AppQueue, AppAnnounced, PaymentHistory.History, PaymentHistory.GoodRows, PipelineLinks.Linked, PaymentSeen.SeenInv, PipelineDelivery.LogInv, PipelineDelivery.CoreInv,
      RemoteApp.Execute, ApplyCallback, InvokeRemote, CapabilityTables.Execute, Authentic, Callbacks.Attempt;
    if Enabled(s, step) && step.AppExecutes? {
      ExecuteAnswers(s.app, step.granted, step.inv, step.newId, step.delivery, step.now);
    } else {
      assert Next(s, step).app.idempotency == s.app.idempotency;
      SameRecords(s.app, Next(s, step).app);
    }
  }

  lemma SameRecords(a: App, b: App)
    requires AllAnswer(a) && b.idempotency == a.idempotency
    ensures AllAnswer(b)
  {
    hide Answers;
  }

  lemma StartHasNoRecords(s: Sys)
    requires Start(s)
    ensures s.app.idempotency == map[]
  {
  }

  lemma {:induction false} RunAnswers(s: Sys, steps: seq<Step>)
    requires Start(s)
    ensures AllAnswer(Run(s, steps).app)
  {
    hide Start, Inv, Next, Answers;
    if steps == [] {
      StartHasNoRecords(s);
    } else {
      RunAnswers(s, steps[..|steps| - 1]);
      EveryRunIsSafe(s, steps[..|steps| - 1]);
      NextAnswers(Run(s, steps[..|steps| - 1]), steps[|steps| - 1]);
    }
  }

  // A request as the services make it: a new payment, or one of the three questions about
  // a payment that exists.
  predicate Asks(r: Request) {
    match r.operation
    case Create => r.resource == "" && r.currency == "IDR"
    case Capture => r.resource != ""
    case Refund => r.resource != ""
    case CheckStatus => r.resource != ""
    case _ => false
  }

  // The remote client's check lets exactly the answers to its request through, whoever
  // gives them.
  lemma ClientAcceptsExactlyAnswers(inv: Invocation, a: Response)
    requires Asks(inv.request)
    ensures RemoteAnswer(inv.installation, inv.capability, inv.request, a) == (if Answers(inv, a) then Ok(Answer(a.resource, [])) else Err(Unavailable))
  {
    hide Token;
  }

  // In every reachable state the app's recorded answers are answers to their requests,
  // and the remote client, which checks them again, refuses none of them.
  lemma RecordedAnswersAreAccepted(t: Sys, q: RequestKey)
    requires Reachable(t) && q in t.app.idempotency
    ensures var inv, a := t.app.idempotency[q].hash, t.app.idempotency[q].response;
            && Answers(inv, a) && Plausible(inv.installation, inv.capability, inv.request, a)
            && RemoteAnswer(inv.installation, inv.capability, inv.request, a) == Ok(Answer(a.resource, []))
  {
    hide Start, Run, Token, ValidMoney;
    var s, steps :| Start(s) && Run(s, steps) == t;
    RunAnswers(s, steps);
  }

  // -------------------------------------------------------------------- settled callbacks

  ghost predicate DeliveredAreReported(t: Sys) {
    forall d :: d in t.app.callbacks && t.app.callbacks[d].status.Delivered? ==> Reported(t, d)
  }

  lemma NextKeepsReported(s: Sys, step: Step)
    requires DeliveredAreReported(s)
    ensures DeliveredAreReported(Next(s, step))
  {
    hide Simulated, ApplyCallback, InvokeRemote, CapabilityTables.Execute, Callbacks.Attempt, CoreInbox.Apply, Unused, Backoff, Authentic;
    var t := Next(s, step);
    PipelineRetries.NextRemembers(s, step);
    if Enabled(s, step) && step.CallbackSettled? {
      Callbacks.SettledAsAnswered(s.app.callbacks[step.delivery], step.granted, step.reply, step.now);
    }
  }

  lemma {:induction false} RunKeepsReported(s: Sys, steps: seq<Step>)
    requires Start(s)
    ensures DeliveredAreReported(Run(s, steps))
  {
    hide Start, Next, DeliveredAreReported;
    if steps == [] {
      StartReportsNothing(s);
    } else {
      RunKeepsReported(s, steps[..|steps| - 1]);
      NextKeepsReported(Run(s, steps[..|steps| - 1]), steps[|steps| - 1]);
    }
  }

  lemma StartReportsNothing(s: Sys)
    requires Start(s)
    ensures DeliveredAreReported(s)
  {
  }

  // Over every run: a callback the app has filed as delivered is in the platform's inbox,
  // with its very body.
  lemma DeliveredWasReported(t: Sys, d: Id)
    requires Reachable(t) && d in t.app.callbacks && t.app.callbacks[d].status.Delivered?
    ensures var c := t.app.callbacks[d]; var key := CallbackKey(c.tenant, c.installation, d);
            key in t.platform.inbox && t.platform.inbox[key].body == c.body
  {
    hide Start, Run, AppInv, PaymentHistory.History, PaymentHistory.GoodRows, PipelineLinks.Linked, PaymentSeen.SeenInv, PipelineDelivery.LogInv, PipelineDelivery.CoreInv;
    var s, steps :| Start(s) && Run(s, steps) == t;
    RunKeepsReported(s, steps);
    EveryRunIsSafe(s, steps);
    var c := t.app.callbacks[d];
    assert PipelineLinks.Matches(CallbackKey(c.tenant, c.installation, d), t.platform.inbox[CallbackKey(c.tenant, c.installation, d)], c);
  }
}
