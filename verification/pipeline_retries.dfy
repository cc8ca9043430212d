// Retries: what a key has recorded stays recorded, repeating a request changes
// nothing, and one key never creates a second payment.
module PipelineRetries {
  import opened Base
  import opened Events
  import opened RemoteApp
  import opened CapabilityTables
  import opened CoreInbox
  import opened PaymentHistory
  import opened PaymentSeen
  import opened Pipeline
  import opened PipelineLinks
  import opened PipelineDelivery
  import opened PipelineTheorems
  import PipelineApp
  import PipelineOrders

  // ------------------------------------------------------------------ stutters

  // The step repeats a request, callback or message whose key is already recorded.
  predicate Redundant(s: Sys, step: Step) {
    match step
    case AppExecutes(_, inv, _, _, _) => RequestKey(inv.tenant, inv.installation, inv.key) in s.app.idempotency
    case CallbackReceived(delivery, _, _, _) => delivery in s.app.callbacks && Reported(s, delivery)
    case RemoteInvoked(user, tenant, _, key, _, _, _, _, _) => InvocationKey(tenant, user, key) in s.platform.receipts
    case SimulatorInvoked(user, tenant, _, _, key, _, _, _, _, _, _) => InvocationKey(tenant, user, key) in s.platform.receipts
    case MessageConsumed(position, _) =>
      position < |s.log| && s.log[position].raw.Encoded? && PipelineOrders.KeyOf(s.log[position]) in s.core.inbox
    case _ => false
  }

  // Whatever the repeated request carries, the same body or another one, no table changes.
  lemma RedundantStutters(s: Sys, step: Step)
    requires Inv(s) && Redundant(s, step)
    ensures Next(s, step) == s
  {
    hide PaymentsInv, CoreInv, LogInv, SavePayment, SimulatePayment, ApplyPayment, Subject, Store;
    if step.MessageConsumed? {
      ConsumedStutters(s, step.position);
    }
  }

  lemma ConsumedStutters(s: Sys, position: nat)
    requires Inv(s) && Redundant(s, MessageConsumed(position, true))
    ensures var m := s.log[position]; Apply(s.core, m.raw.envelope.tenant, position + 1, m).0 == s.core
  {
    hide PaymentsInv, Apply, Counted, Folded, Subject, ValidEnvelope;
    var m := s.log[position];
    assert Logged(s.platform.events, m);
    var (d, outcome) := Apply(s.core, m.raw.envelope.tenant, position + 1, m);
    TakenAgain(s.platform.events, s.core, position + 1, m, m.raw.envelope, d, outcome);
  }

  // The run without its redundant steps.
  function Compact(s: Sys, steps: seq<Step>): seq<Step> {
    if steps == [] then []
    else
      var rest := steps[..|steps| - 1];
      if Redundant(Run(s, rest), steps[|steps| - 1]) then Compact(s, rest) else Compact(s, rest) + [steps[|steps| - 1]]
  }

  // Leaving out every repeated request, callback and message leaves the same
  // final tables, and no repetition is left in what remains.
  lemma {:induction false} RepetitionsLeaveNoTrace(s: Sys, steps: seq<Step>)
    requires Start(s)
    ensures Run(s, Compact(s, steps)) == Run(s, steps)
    ensures forall i :: 0 <= i < |Compact(s, steps)| ==> !Redundant(Run(s, Compact(s, steps)[..i]), Compact(s, steps)[i])
  {
    hide Start, Inv, Next, Redundant;
    if steps != [] {
      var rest, last := steps[..|steps| - 1], steps[|steps| - 1];
      RepetitionsLeaveNoTrace(s, rest);
      var c := Compact(s, rest);
      if Redundant(Run(s, rest), last) {
        EveryRunIsSafe(s, rest);
        RedundantStutters(Run(s, rest), last);
      } else {
        var d := c + [last];
        assert d[..|d| - 1] == c;
        forall i | 0 <= i < |d|
          ensures !Redundant(Run(s, d[..i]), d[i])
        {
          assert i < |c| ==> d[..i] == c[..i];
        }
      }
    }
  }

  // -------------------------------------------------------------------- memory

  // A published row is final: same envelope, still published, never dead again.
  ghost predicate PublishedStay(a: map<Id, OutboxRow>, b: map<Id, OutboxRow>) {
    forall e :: e in a && a[e].published && !a[e].dead ==> e in b && b[e] == a[e]
  }

  // Nothing recorded is ever lost or rewritten.
  ghost predicate RemembersAll(a: Sys, b: Sys) {
    && Remembers(a.platform, b.platform)
    && (forall q :: q in a.app.idempotency ==> q in b.app.idempotency && b.app.idempotency[q] == a.app.idempotency[q])
    && (forall k :: k in a.core.inbox ==> k in b.core.inbox && b.core.inbox[k] == a.core.inbox[k])
    && PublishedStay(a.platform.events, b.platform.events)
    && a.log <= b.log
  }

  lemma ApplyRemembers(c: Core, tenant: Id, sequence: nat, m: Message)
    ensures forall k :: k in c.inbox ==> k in Apply(c, tenant, sequence, m).0.inbox && Apply(c, tenant, sequence, m).0.inbox[k] == c.inbox[k]
  {
    hide ApplyPayment, Decodes, Subject;
  }

  // Events are only added.
  ghost predicate KeepsRows(a: map<Id, OutboxRow>, b: map<Id, OutboxRow>) {
    forall e :: e in a ==> e in b && b[e] == a[e]
  }

  lemma SaveRemembers(p: Platform, tenant: Id, ins: Id, actor: Id, correlation: string, next: Snapshot, event: Id, now: int)
    ensures var r := SavePayment(p, tenant, ins, actor, correlation, next, event, now);
            r.Ok? ==> r.value.0.inbox == p.inbox && r.value.0.receipts == p.receipts && KeepsRows(p.events, r.value.0.events)
  {
    hide Fold;
  }

  lemma InvocationRemembers(p: Platform, user: Id, tenant: Id, cap: Capability, ins: Id, key: string, correlation: string,
                            req: Request, run: Option<Snapshot> -> Result<Answer>, status: Id, invoked: Id, now: int)
    ensures var q := CapabilityTables.Execute(p, user, tenant, cap, ins, key, correlation, req, run, status, invoked, now).0;
            Remembers(p, q) && KeepsRows(p.events, q.events)
  {
    hide Store, Current, NewRow;
    var c := Current(p, tenant, ins, cap, req.resource);
    if c.Ok? && run(c.value).Ok? {
      StoreRemembers(p, tenant, ins, cap, user, correlation, run(c.value).value.resource, status, now);
    }
  }

  lemma StoreRemembers(p: Platform, tenant: Id, ins: Id, cap: Capability, user: Id, correlation: string, resource: Option<Snapshot>, status: Id, now: int)
    ensures var r := Store(p, tenant, ins, cap, user, correlation, resource, status, now);
            r.Ok? ==> r.value.0.inbox == p.inbox && r.value.0.receipts == p.receipts && KeepsRows(p.events, r.value.0.events)
  {
    hide SavePayment;
    if resource.Some? {
      SaveRemembers(p, tenant, ins, user, correlation, resource.value, status, now);
    }
  }

  lemma PlatformRemembers(s: Sys, step: Step)
    requires Enabled(s, step) && (step.CallbackReceived? || step.RemoteInvoked? || step.SimulatorInvoked?)
    ensures RemembersAll(s, Next(s, step)) && KeepsRows(s.platform.events, Next(s, step).platform.events)
  {
    hide SavePayment, CapabilityTables.Execute, Authentic, Simulate, RemoteAnswer;
    match step
    case CallbackReceived(delivery, correlation, event, now) =>
      var c := s.app.callbacks[delivery];
      SaveRemembers(s.platform, c.tenant, c.installation, "app-callback", correlation, c.body.resource, event, now);
    case RemoteInvoked(user, tenant, ins, key, correlation, req, status, invoked, now) =>
      var a := s.app.idempotency[RequestKey(tenant, ins, DerivedKey(tenant, ins, user, key))].response;
      InvocationRemembers(s.platform, user, tenant, PaymentV1, ins, key, correlation, req, _ => RemoteAnswer(ins, PaymentV1, req, a), status, invoked, now);
    case SimulatorInvoked(user, tenant, ins, cap, key, correlation, req, newId, status, invoked, now) =>
      InvocationRemembers(s.platform, user, tenant, cap, ins, key, correlation, req, current => Simulate(cap, req, current, newId), status, invoked, now);
  }

  lemma NextRemembers(s: Sys, step: Step)
    ensures RemembersAll(s, Next(s, step))
  {
    hide ApplyCallback, InvokeRemote, Apply, CapabilityTables.Execute, SimulatePayment, Authentic, Posted, Backoff;
    if Enabled(s, step) {
      if step.CallbackReceived? || step.RemoteInvoked? || step.SimulatorInvoked? {
        PlatformRemembers(s, step);
      } else if step.MessageConsumed? {
        var m := s.log[step.position];
        ApplyRemembers(s.core, m.raw.envelope.tenant, step.position + 1, m);
      }
    }
  }

  lemma {:induction false} RunRemembers(s: Sys, steps: seq<Step>)
    ensures RemembersAll(s, Run(s, steps))
  {
    hide Next, RemembersAll;
    if steps == [] {
      assert RemembersAll(s, s) by { RemembersSelf(s); }
    } else {
      RunRemembers(s, steps[..|steps| - 1]);
      NextRemembers(Run(s, steps[..|steps| - 1]), steps[|steps| - 1]);
      RemembersThrough(s, Run(s, steps[..|steps| - 1]), Run(s, steps));
    }
  }

  lemma RemembersSelf(s: Sys)
    ensures RemembersAll(s, s)
  {
  }

  lemma RemembersThrough(a: Sys, b: Sys, c: Sys)
    requires RemembersAll(a, b) && RemembersAll(b, c)
    ensures RemembersAll(a, c)
  {
  }

  // Over any run a published row is in the broker, is never touched again, and no
  // row is ever both published and dead.
  lemma PublishedIsFinal(t: Sys, more: seq<Step>, e: Id)
    requires Reachable(t) && e in t.platform.events && t.platform.events[e].published
    ensures Posted(t.platform.events[e].envelope) in t.log && !t.platform.events[e].dead
    ensures var u := Run(t, more); e in u.platform.events && u.platform.events[e] == t.platform.events[e] && t.log <= u.log
  {
    hide Reachable, Run, PaymentsInv, CoreInv, Subject;
    ReachableIsSafe(t);
    RunRemembers(t, more);
  }

  lemma NextLeavesDead(s: Sys, step: Step, e: Id)
    requires e in s.platform.events && s.platform.events[e].dead && !(step.EventReplayed? && step.event == e)
    ensures e in Next(s, step).platform.events && Next(s, step).platform.events[e] == s.platform.events[e]
  {
    hide ApplyCallback, InvokeRemote, Apply, CapabilityTables.Execute, RemoteApp.Execute, Authentic, Posted, Backoff, RemembersAll, Unused;
    if Enabled(s, step) && (step.CallbackReceived? || step.RemoteInvoked? || step.SimulatorInvoked?) {
      PlatformRemembers(s, step);
    }
  }

  // Over any run a dead row stays dead, untouched in every column, until an operator
  // replays this very row.
  lemma {:induction false} DeadUntilReplayed(s: Sys, steps: seq<Step>, e: Id)
    requires e in s.platform.events && s.platform.events[e].dead
    requires forall i :: 0 <= i < |steps| && steps[i].EventReplayed? ==> steps[i].event != e
    ensures e in Run(s, steps).platform.events && Run(s, steps).platform.events[e] == s.platform.events[e]
  {
    hide Next;
    if steps != [] {
      DeadUntilReplayed(s, steps[..|steps| - 1], e);
      NextLeavesDead(Run(s, steps[..|steps| - 1]), steps[|steps| - 1], e);
    }
  }

  // A recorded invocation, retried after any later run: the recorded response for
  // the same request, Conflict for another one, and no change either way.
  lemma RetryReturnsTheReceipt(t: Sys, more: seq<Step>, user: Id, tenant: Id, cap: Capability, ins: Id, key: string, correlation: string,
                               req: Request, run: Option<Snapshot> -> Result<Answer>, status: Id, invoked: Id, now: int)
    requires InvocationKey(tenant, user, key) in t.platform.receipts
    ensures var receipt := t.platform.receipts[InvocationKey(tenant, user, key)];
            CapabilityTables.Execute(Run(t, more).platform, user, tenant, cap, ins, key, correlation, req, run, status, invoked, now)
            == (Run(t, more).platform, if receipt.hash == InvocationHash(ins, cap, req) then Ok(receipt.response) else Err(Conflict))
  {
    hide Run, Store;
    RunRemembers(t, more);
  }

  // The app has served this invocation; whatever the platform lost since, asking
  // again while granted gives the same answer and changes nothing.
  lemma AppRetryReturnsTheRecord(t: Sys, more: seq<Step>, inv: Invocation, newId: Id, delivery: Id, now: int)
    requires Answered(t, inv)
    ensures Answered(Run(t, more), inv)
    ensures RemoteApp.Execute(Run(t, more).app, true, inv, newId, delivery, now)
            == (Run(t, more).app, Ok(t.app.idempotency[RequestKey(inv.tenant, inv.installation, inv.key)].response))
  {
    hide Run, SimulatePayment;
    RunRemembers(t, more);
  }

  // ------------------------------------------------------------ one key, one payment

  // The request recorded under `q` created the payment `k`.
  ghost predicate Made(records: map<RequestKey, Record>, q: RequestKey, k: AppKey) {
    && q in records && records[q].hash.request.operation.Create?
    && records[q].response.resource.Some?
    && k == AppKey(q.tenant, q.installation, records[q].response.resource.value.id)
  }

  // New payments and recorded create requests correspond one to one.
  ghost predicate Origins(before: map<AppKey, Snapshot>, a: App) {
    && (forall k :: k in before ==> k in a.resources)
    && (forall k :: k in a.resources && k !in before ==> exists q :: Made(a.idempotency, q, k))
    && (forall q, k :: Made(a.idempotency, q, k) ==> k in a.resources && k !in before)
    && (forall q, r, k :: Made(a.idempotency, q, k) && Made(a.idempotency, r, k) ==> q == r)
  }

  lemma RecordKeepsOrigins(before: map<AppKey, Snapshot>, a: App, b: App, q: RequestKey, record: Record, k: AppKey, r: Snapshot)
    requires Origins(before, a) && q !in a.idempotency && record.response.resource == Some(r) && k == AppKey(q.tenant, q.installation, r.id)
    requires b.resources == a.resources[k := r] && b.idempotency == a.idempotency[q := record]
    requires record.hash.request.operation.Create? <==> k !in a.resources
    ensures Origins(before, b)
  {
    hide Made;
    forall p, l
      ensures Made(b.idempotency, p, l) <==> if p == q then record.hash.request.operation.Create? && l == k else Made(a.idempotency, p, l)
    {
      MadeAfter(a.idempotency, q, record, p, l);
    }
    forall l | l in b.resources && l !in before
      ensures exists q :: Made(b.idempotency, q, l)
    {
      if l in a.resources {
        var p :| Made(a.idempotency, p, l);
        MadeIsRecorded(a.idempotency, p, l);
        assert Made(b.idempotency, p, l);
      } else {
        assert Made(b.idempotency, q, l);
      }
    }
  }

  lemma MadeIsRecorded(records: map<RequestKey, Record>, p: RequestKey, l: AppKey)
    requires Made(records, p, l)
    ensures p in records
  {
  }

  lemma MadeAfter(records: map<RequestKey, Record>, q: RequestKey, record: Record, p: RequestKey, l: AppKey)
    requires q !in records && record.response.resource.Some?
    ensures Made(records[q := record], p, l) <==>
              if p == q then record.hash.request.operation.Create? && l == AppKey(q.tenant, q.installation, record.response.resource.value.id) else Made(records, p, l)
  {
  }

  lemma AppStepKeepsOrigins(before: map<AppKey, Snapshot>, s: Sys, step: Step)
    requires AppInv(s.app) && Origins(before, s.app)
    ensures Origins(before, Next(s, step).app)
  {
    hide AppQueue, AppRecords, AppAnnounced, ValidPayment;
    if Enabled(s, step) && step.AppExecutes? && Next(s, step).app != s.app {
      hide Origins;
      var k, r := PipelineApp.ExecuteWrites(s.app, step.granted, step.inv, step.newId, step.delivery, step.now);
      CreateIsNew(s.app, step.granted, step.inv, step.newId, step.delivery, step.now, k, r);
      var inv := step.inv;
      var q := RequestKey(inv.tenant, inv.installation, inv.key);
      RecordKeepsOrigins(before, s.app, Next(s, step).app, q, Next(s, step).app.idempotency[q], k, r);
    } else {
      assert Next(s, step).app.idempotency == s.app.idempotency && Next(s, step).app.resources == s.app.resources;
    }
  }

  lemma CreateIsNew(a: App, granted: bool, inv: Invocation, newId: Id, delivery: Id, now: int, k: AppKey, r: Snapshot)
    requires AppRows(a.resources) && PipelineApp.NewToApp(a, newId)
    requires var b := RemoteApp.Execute(a, granted, inv, newId, delivery, now).0; b != a && PipelineApp.Wrote(a, b, inv, k, r, delivery, now)
    ensures RequestKey(inv.tenant, inv.installation, inv.key) !in a.idempotency
    ensures inv.request.operation.Create? <==> k !in a.resources
  {
    var current := if inv.request.resource != "" then Some(a.resources[AppKey(inv.tenant, inv.installation, inv.request.resource)]) else None;
    PipelineApp.SimulatorFollows(inv.request, current, newId);
  }

  // Over any run the payments that are new and the create requests the app has
  // recorded correspond one to one: retrying a request cannot create a second one.
  lemma {:induction false} OneCreateKeyOnePayment(s: Sys, steps: seq<Step>)
    requires Start(s)
    ensures Origins(s.app.resources, Run(s, steps).app)
  {
    hide Inv, Next, Start, Origins;
    if steps == [] {
      assert Origins(s.app.resources, s.app) by { StartHasNoOrigins(s); }
    } else {
      OneCreateKeyOnePayment(s, steps[..|steps| - 1]);
      EveryRunIsSafe(s, steps[..|steps| - 1]);
      InvHasApp(Run(s, steps[..|steps| - 1]));
      AppStepKeepsOrigins(s.app.resources, Run(s, steps[..|steps| - 1]), steps[|steps| - 1]);
    }
  }

  lemma StartHasNoOrigins(s: Sys)
    requires Start(s)
    ensures Origins(s.app.resources, s.app)
  {
  }

  lemma InvHasApp(s: Sys)
    requires Inv(s)
    ensures AppInv(s.app)
  {
    hide AppInv;
  }

  // Committing an invocation on the app's recorded answer, at any later time: the
  // caller is given that same payment, no older than the answer, or a plain
  // refusal that changes nothing; never Conflict.
  lemma RetryFindsTheSamePayment(t: Sys, user: Id, tenant: Id, ins: Id, key: string, correlation: string, req: Request, status: Id, invoked: Id, now: int, q: Platform, r: Result<Response>)
    requires Reachable(t) && InstallationKey(tenant, ins) !in t.simulated && Answered(t, Call(user, tenant, ins, key, req))
    requires InvocationKey(tenant, user, key) !in t.platform.receipts
    requires (q, r) == InvokeRemote(t, user, tenant, ins, key, correlation, req, status, invoked, now)
    ensures r.Err? ==> q == t.platform && r.fault != Conflict
    ensures r.Ok? ==>
              var a := t.app.idempotency[RequestKey(tenant, ins, DerivedKey(tenant, ins, user, key))].response;
              && a.resource.Some? && r.value.resource.Some?
              && SameIdentity(r.value.resource.value, a.resource.value) && r.value.resource.value.revision >= a.resource.value.revision
              && InvocationKey(tenant, user, key) in q.receipts && q.receipts[InvocationKey(tenant, user, key)] == Receipt(InvocationHash(ins, PaymentV1, req), r.value)
  {
    hide Reachable, Inv, InvokeRemote, SameIdentity;
    ReachableIsSafe(t);
    AnswerIsStored(t, user, tenant, ins, key, correlation, req, status, invoked, now, q, r);
  }

  // What a committed invocation on a recorded answer has done.
  lemma InvokeCases(t: Sys, user: Id, tenant: Id, ins: Id, key: string, correlation: string, req: Request, status: Id, invoked: Id, now: int, a: Response, q: Platform, r: Result<Response>)
    requires Answered(t, Call(user, tenant, ins, key, req)) && a == t.app.idempotency[RequestKey(tenant, ins, DerivedKey(tenant, ins, user, key))].response
    requires InvocationKey(tenant, user, key) !in t.platform.receipts
    requires (q, r) == InvokeRemote(t, user, tenant, ins, key, correlation, req, status, invoked, now)
    ensures r.Err? ==> q == t.platform
    ensures r.Ok? ==>
              && a.resource.Some?
              && (var saved := SavePayment(t.platform, tenant, ins, user, correlation, a.resource.value, status, now);
                  saved.Ok? && r.value.resource == Some(saved.value.1))
              && InvocationKey(tenant, user, key) in q.receipts
              && q.receipts[InvocationKey(tenant, user, key)] == Receipt(InvocationHash(ins, PaymentV1, req), r.value)
  {
    hide SavePayment, Token, ValidMoney, DerivedKey;
    if r.Ok? {
      SaveRemembers(t.platform, tenant, ins, user, correlation, a.resource.value, status, now);
    }
  }

  lemma AnswerIsStored(t: Sys, user: Id, tenant: Id, ins: Id, key: string, correlation: string, req: Request, status: Id, invoked: Id, now: int, q: Platform, r: Result<Response>)
    requires Inv(t) && InstallationKey(tenant, ins) !in t.simulated && Answered(t, Call(user, tenant, ins, key, req))
    requires InvocationKey(tenant, user, key) !in t.platform.receipts
    requires (q, r) == InvokeRemote(t, user, tenant, ins, key, correlation, req, status, invoked, now)
    ensures var a := t.app.idempotency[RequestKey(tenant, ins, DerivedKey(tenant, ins, user, key))].response;
            && (r.Err? ==> q == t.platform && r.fault != Conflict)
            && (r.Ok? ==> && a.resource.Some? && r.value.resource.Some?
                          && SameIdentity(r.value.resource.value, a.resource.value) && r.value.resource.value.revision >= a.resource.value.revision
                          && InvocationKey(tenant, user, key) in q.receipts && q.receipts[InvocationKey(tenant, user, key)] == Receipt(InvocationHash(ins, PaymentV1, req), r.value))
  {
    hide SavePayment, LogInv, CoreInv, History, GoodRows, AppInv, Linked, SeenInv, Genuine, Continues, InvokeRemote, DerivedKey, RowsAdvance, Touched;
    var a := t.app.idempotency[RequestKey(tenant, ins, DerivedKey(tenant, ins, user, key))].response;
    RemoteStepKeeps(t, user, tenant, ins, key, correlation, req, status, invoked, now, q, r);
    InvokeCases(t, user, tenant, ins, key, correlation, req, status, invoked, now, a, q, r);
    RecordedAnswerFits(t, user, tenant, ins, key, req);
    if r.Ok? {
      GoodRowsAreSound(t.platform);
      SavePaymentKeeps(t.platform, tenant, ins, user, correlation, a.resource.value, status, now);
    }
  }

  // ------------------------------------------------------------------ derived keys

  predicate Plain(s: string) {
    ':' !in s
  }

  // Only the actor may contain the separator, so the derived text still tells all
  // four parts apart: two invocations share an app key only if they share them all.
  lemma DerivedKeyTellsApart(t: Id, i: Id, a: Id, k: string, t': Id, i': Id, a': Id, k': string)
    requires Plain(t) && Plain(i) && Plain(k) && Plain(t') && Plain(i') && Plain(k')
    requires DerivedKey(t, i, a, k) == DerivedKey(t', i', a', k')
    ensures t == t' && i == i' && a == a' && k == k'
  {
    var x, x' := i + ":" + a + ":" + k, i' + ":" + a' + ":" + k';
    assert DerivedKey(t, i, a, k) == t + [':'] + x;
    assert DerivedKey(t', i', a', k') == t' + [':'] + x';
    FirstPart(t, x, t', x');
    var y, y' := a + ":" + k, a' + ":" + k';
    assert x == i + [':'] + y;
    assert x' == i' + [':'] + y';
    FirstPart(i, y, i', y');
    assert y == a + [':'] + k;
    assert y' == a' + [':'] + k';
    LastPart(a, k, a', k');
  }

  // The text up to the first separator, and after the last one.
  function Head(w: string): string {
    if w == [] || w[0] == ':' then [] else [w[0]] + Head(w[1..])
  }

  function Tail(w: string): string {
    if w == [] || w[|w| - 1] == ':' then [] else Tail(w[..|w| - 1]) + [w[|w| - 1]]
  }

  lemma {:induction false} HeadIsFirst(a: string, x: string)
    requires Plain(a)
    ensures Head(a + [':'] + x) == a
  {
    var w := a + [':'] + x;
    if a != [] {
      assert w[0] == a[0] && w[1..] == a[1..] + [':'] + x;
      HeadIsFirst(a[1..], x);
    }
  }

  lemma {:induction false} TailIsLast(x: string, a: string)
    requires Plain(a)
    ensures Tail(x + [':'] + a) == a
  {
    var w := x + [':'] + a;
    if a != [] {
      var rest := a[..|a| - 1];
      assert w[|w| - 1] == a[|a| - 1] && w[..|w| - 1] == x + [':'] + rest;
      TailIsLast(x, rest);
    }
  }

  lemma FirstPart(a: string, x: string, b: string, y: string)
    requires Plain(a) && Plain(b) && a + [':'] + x == b + [':'] + y
    ensures a == b && x == y
  {
    HeadIsFirst(a, x);
    HeadIsFirst(b, y);
    assert x == (a + [':'] + x)[|a| + 1..] && y == (b + [':'] + y)[|b| + 1..];
  }

  lemma LastPart(x: string, a: string, y: string, b: string)
    requires Plain(a) && Plain(b) && x + [':'] + a == y + [':'] + b
    ensures a == b && x == y
  {
    TailIsLast(x, a);
    TailIsLast(y, b);
    assert x == (x + [':'] + a)[..|x|] && y == (y + [':'] + b)[..|y|];
  }
}
