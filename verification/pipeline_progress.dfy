// What can still reach the consumer: from every state of every run there is a way on,
// without any operator's help, that delivers exactly the events that are not lost.
module PipelineProgress {
  import opened Base
  import opened Events
  import opened RemoteApp
  import opened CapabilityTables
  import opened CoreInbox
  import opened PaymentHistory
  import opened Pipeline
  import opened PipelineLinks
  import opened PipelineDelivery
  import opened PipelineTheorems
  import opened PipelineResults
  import PipelineRetries
  import Announcements
  import Callbacks
  import Outbox

  predicate NoReplay(steps: seq<Step>) {
    forall i :: 0 <= i < |steps| ==> !steps[i].EventReplayed?
  }

  predicate NoDelivery(steps: seq<Step>) {
    forall i :: 0 <= i < |steps| ==> !steps[i].EventReplayed? && !steps[i].EventAttempted?
  }

  // The consumer has taken it.
  ghost predicate InInbox(t: Sys, e: Id) {
    e in t.platform.events && InboxKey(t.platform.events[e].envelope.tenant, e) in t.core.inbox
  }

  // The broker has it, or it is still to be tried and the event contract accepts it.
  ghost predicate Deliverable(t: Sys, e: Id) {
    e in t.platform.events &&
    (Posted(t.platform.events[e].envelope) in t.log || (!t.platform.events[e].published && !t.platform.events[e].dead && Outbox.Publishable(e, t.platform.events[e])))
  }

  lemma {:induction false} RunJoins(s: Sys, a: seq<Step>, b: seq<Step>)
    ensures Run(s, a + b) == Run(Run(s, a), b)
  {
    hide Next;
    if b == [] {
      assert a + b == a;
    } else {
      RunJoins(s, a, b[..|b| - 1]);
      assert (a + b)[..|a + b| - 1] == a + b[..|b| - 1];
    }
  }

  // ------------------------------------------------------------------- delivering one

  // What a delivery leaves alone: everything but this event's bookkeeping, the log that
  // grows and the inbox that grows.
  ghost predicate Delivered(s: Sys, t: Sys, e: Id) {
    && e in s.platform.events && e in t.platform.events && t.platform.events == s.platform.events[e := t.platform.events[e]]
    && t.platform.events[e].envelope == s.platform.events[e].envelope && t.platform.events[e].tenant == s.platform.events[e].tenant
    && t.app == s.app && t.platform.resources == s.platform.resources && s.log <= t.log
    && (forall k :: k in s.core.inbox ==> k in t.core.inbox)
  }

  // The attempt that succeeds.
  lemma Lands(s: Sys, e: Id) returns (step: Step, t: Sys)
    requires Inv(s) && Deliverable(s, e) && Posted(s.platform.events[e].envelope) !in s.log
    ensures step.EventAttempted? && t == Next(s, step) && Inv(t) && Delivered(s, t, e) && Posted(s.platform.events[e].envelope) in t.log
  {
    hide Inv, Posted, Outbox.Publishable;
    var row := s.platform.events[e];
    step := EventAttempted(e, Outbox.Acked, true, true, row.nextAt);
    assert Outbox.Due(row, row.nextAt);
    t := Next(s, step);
    NextKeeps(s, step);
    assert t.log[|s.log|] == Posted(row.envelope);
  }

  // The consumer takes it from the log.
  lemma Arrives(s: Sys, e: Id) returns (step: Step, t: Sys)
    requires Inv(s) && e in s.platform.events && Posted(s.platform.events[e].envelope) in s.log
    ensures step.MessageConsumed? && t == Next(s, step) && Inv(t) && Delivered(s, t, e) && InInbox(t, e)
  {
    hide Inv, Apply, Subject;
    var m := Posted(s.platform.events[e].envelope);
    var i :| 0 <= i < |s.log| && s.log[i] == m;
    step := MessageConsumed(i, true);
    t := Next(s, step);
    NextKeeps(s, step);
    ConsumeKeeps(s, i);
    IdsStand(s, e);
  }

  lemma IdsStand(s: Sys, e: Id)
    requires Inv(s) && e in s.platform.events
    ensures s.platform.events[e].envelope.id == e && s.platform.events[e].tenant == s.platform.events[e].envelope.tenant
  {
    hide AppInv, GoodRows, Linked, PaymentSeen.SeenInv, Ordered, Complete, LogInv, CoreInv, DecodesPayment, Tells;
  }

  lemma DeliverOne(s: Sys, e: Id) returns (more: seq<Step>, t: Sys)
    requires Inv(s) && Deliverable(s, e)
    ensures NoReplay(more) && t == Run(s, more) && Inv(t) && Delivered(s, t, e) && InInbox(t, e)
  {
    hide Inv, Next, Run, Posted, Outbox.Publishable, InInbox;
    more, t := [], s;
    NoStep(s);
    if Posted(s.platform.events[e].envelope) !in s.log {
      var step, u := Lands(s, e);
      OneStep(s, more, step);
      more, t := more + [step], u;
    }
    var step, u := Arrives(t, e);
    OneStep(s, more, step);
    more, t := more + [step], u;
  }

  lemma NoStep(s: Sys)
    ensures Run(s, []) == s
  {
  }

  lemma OneStep(s: Sys, steps: seq<Step>, step: Step)
    ensures Run(s, steps + [step]) == Next(Run(s, steps), step)
  {
    hide Next;
    assert (steps + [step])[..|steps|] == steps;
  }

  lemma OthersWait(s: Sys, t: Sys, e: Id, f: Id)
    requires Delivered(s, t, e) && Deliverable(s, f)
    ensures Deliverable(t, f) || f == e
  {
    hide Posted, Outbox.Publishable;
  }

  // ------------------------------------------------------------------- delivering all

  lemma {:induction false} DeliverAll(s: Sys, todo: set<Id>) returns (more: seq<Step>)
    requires Inv(s) && forall e :: e in todo ==> Deliverable(s, e)
    ensures NoReplay(more) && Run(s, more).platform.events.Keys == s.platform.events.Keys
    ensures forall e :: e in s.platform.events ==> Run(s, more).platform.events[e].envelope == s.platform.events[e].envelope
    ensures forall k :: k in s.core.inbox ==> k in Run(s, more).core.inbox
    ensures forall e :: e in todo ==> InInbox(Run(s, more), e)
    decreases |todo|
  {
    hide Inv, Next, Deliverable, Run;
    if todo == {} {
      more := [];
      NoStep(s);
    } else {
      var e :| e in todo;
      var first, t := DeliverOne(s, e);
      forall f | f in todo - {e}
        ensures Deliverable(t, f)
      {
        OthersWait(s, t, e, f);
      }
      var rest := DeliverAll(t, todo - {e});
      more := first + rest;
      RunJoins(s, first, rest);
    }
  }

  // ------------------------------------------------------------------------ lost ones

  // Whatever the consumer has taken the broker had before.
  ghost predicate TakenFromLog(t: Sys) {
    forall k :: k in t.core.inbox ==> Posted(t.core.inbox[k]) in t.log
  }

  lemma NextTakesFromLog(s: Sys, step: Step)
    requires Inv(s) && TakenFromLog(s)
    ensures TakenFromLog(Next(s, step))
  {
    hide PaymentsInv, CoreInv, ApplyCallback, InvokeRemote, Apply, CapabilityTables.Execute, RemoteApp.Execute, Authentic, Unused, Outbox.Publishable, Subject, ValidEnvelope;
    var t := Next(s, step);
    if Enabled(s, step) && step.MessageConsumed? && step.committed {
      var m := s.log[step.position];
      ConsumeKeeps(s, step.position);
      assert Logged(s.platform.events, m) && m == Posted(m.raw.envelope);
    }
  }

  lemma {:induction false} RunTakesFromLog(s: Sys, steps: seq<Step>)
    requires Start(s)
    ensures TakenFromLog(Run(s, steps))
  {
    hide Start, Inv, Next, TakenFromLog;
    if steps == [] {
      StartTakesNothing(s);
    } else {
      RunTakesFromLog(s, steps[..|steps| - 1]);
      EveryRunIsSafe(s, steps[..|steps| - 1]);
      NextTakesFromLog(Run(s, steps[..|steps| - 1]), steps[|steps| - 1]);
    }
  }

  lemma StartTakesNothing(s: Sys)
    requires Start(s)
    ensures TakenFromLog(s)
  {
  }

  lemma TakenWasDeliverable(t: Sys, e: Id)
    requires Inv(t) && TakenFromLog(t) && InInbox(t, e)
    ensures Deliverable(t, e)
  {
    hide PaymentsInv, LogInv, Counted, Folded, Posted, ValidEnvelope, Outbox.Publishable;
  }

  // Out of the broker's log, and dead or not a valid event.
  ghost predicate Lost(t: Sys, e: Id) {
    e in t.platform.events && !Deliverable(t, e)
  }

  lemma EnvelopesDiffer(s: Sys, e: Id, f: Id)
    requires Inv(s) && e in s.platform.events && f in s.platform.events && e != f
    ensures Posted(s.platform.events[e].envelope) != Posted(s.platform.events[f].envelope)
  {
    hide Inv, Subject;
    IdsStand(s, e);
    IdsStand(s, f);
  }

  lemma NextKeepsLost(s: Sys, step: Step, e: Id)
    requires Inv(s) && Lost(s, e) && !step.EventReplayed?
    ensures Lost(Next(s, step), e) && Next(s, step).platform.events[e].envelope == s.platform.events[e].envelope
  {
    hide Inv, ApplyCallback, InvokeRemote, Apply, CapabilityTables.Execute, RemoteApp.Execute, Authentic, Unused, ValidEnvelope, Posted, Backoff, PipelineRetries.RemembersAll;
    if Enabled(s, step) {
      if step.CallbackReceived? || step.RemoteInvoked? || step.SimulatorInvoked? {
        PipelineRetries.PlatformRemembers(s, step);
      } else if step.EventAttempted? && step.event != e {
        EnvelopesDiffer(s, e, step.event);
      }
    }
  }

  lemma {:induction false} LostStaysLost(s: Sys, steps: seq<Step>, e: Id)
    requires Inv(s) && Lost(s, e) && NoReplay(steps)
    ensures Lost(Run(s, steps), e) && Run(s, steps).platform.events[e].envelope == s.platform.events[e].envelope && Inv(Run(s, steps))
  {
    hide Inv, Next, Lost;
    if steps != [] {
      var rest, last := steps[..|steps| - 1], steps[|steps| - 1];
      assert NoReplay(rest) && !last.EventReplayed?;
      LostStaysLost(s, rest, e);
      NextKeeps(Run(s, rest), last);
      NextKeepsLost(Run(s, rest), last, e);
    }
  }

  // -------------------------------------------------------------------------- results

  // From every reachable state there is a way on without operator replays on which the
  // consumer takes every event that is not lost, and on no such way it takes a lost one.
  lemma EverythingDeliverableArrives(t: Sys) returns (more: seq<Step>)
    requires Reachable(t)
    ensures NoReplay(more) && Run(t, more).platform.events.Keys == t.platform.events.Keys
    ensures forall e :: e in t.platform.events ==> Run(t, more).platform.events[e].envelope == t.platform.events[e].envelope
    ensures forall e :: e in t.platform.events ==> (InInbox(Run(t, more), e) <==> Deliverable(t, e))
  {
    hide Reachable, Inv, Run, Deliverable, InInbox, Lost;
    ReachableIsSafe(t);
    more := DeliverAll(t, set e | e in t.platform.events && Deliverable(t, e));
    forall e | e in t.platform.events && InInbox(Run(t, more), e)
      ensures Deliverable(t, e)
    {
      LostIsNotTaken(t, more, e);
    }
  }

  lemma LostIsNotTaken(t: Sys, more: seq<Step>, e: Id)
    requires Reachable(t) && NoReplay(more) && e in t.platform.events && InInbox(Run(t, more), e)
    ensures Deliverable(t, e)
  {
    hide Reachable, Inv, Run, Deliverable, InInbox, TakenFromLog;
    ReachableIsSafe(t);
    if !Deliverable(t, e) {
      assert Lost(t, e);
      LostStaysLost(t, more, e);
      ReachableTakesFromLog(t, more);
      TakenWasDeliverable(Run(t, more), e);
    }
  }

  lemma ReachableTakesFromLog(t: Sys, more: seq<Step>)
    requires Reachable(t)
    ensures TakenFromLog(Run(t, more))
  {
    hide Start, Run, TakenFromLog;
    var s, steps :| Start(s) && Run(s, steps) == t;
    RunJoins(s, steps, more);
    RunTakesFromLog(s, steps + more);
  }

  // For one payment: the consumer can still come to agree with the platform, without an
  // operator, if and only if none of its events is lost.
  lemma AllTakenIsReachableExactlyWhen(t: Sys, key: ResourceKey)
    requires Reachable(t)
    ensures (exists more :: NoReplay(more) && AllTaken(Run(t, more), key)) <==> forall e :: e in t.platform.events && About(t.platform.events[e].envelope, key) ==> Deliverable(t, e)
  {
    hide Reachable, Inv, Run, Deliverable, About, AllTaken, InInbox;
    if forall e :: e in t.platform.events && About(t.platform.events[e].envelope, key) ==> Deliverable(t, e) {
      var more := EverythingDeliverableArrives(t);
      TakenOneByOne(Run(t, more), key);
    }
    forall more, e | NoReplay(more) && AllTaken(Run(t, more), key) && e in t.platform.events && About(t.platform.events[e].envelope, key)
      ensures Deliverable(t, e)
    {
      if !Deliverable(t, e) {
        ReachableIsSafe(t);
        assert Lost(t, e);
        LostStaysLost(t, more, e);
        TakenOneByOne(Run(t, more), key);
        LostIsNotTaken(t, more, e);
      }
    }
  }

  lemma TakenOneByOne(t: Sys, key: ResourceKey)
    ensures AllTaken(t, key) <==> forall e :: e in t.platform.events && About(t.platform.events[e].envelope, key) ==> InInbox(t, e)
  {
  }

  // ------------------------------------------------------------------- nothing tried yet

  ghost predicate Untried(t: Sys) {
    forall e :: e in t.platform.events ==> !t.platform.events[e].published && !t.platform.events[e].dead
  }

  // The ids a step brings into the outbox are such as the services hand out.
  predicate Tidy(step: Step) {
    match step
    case CallbackReceived(_, correlation, event, now) => Token(correlation) && Token(event) && now != 0
    case RemoteInvoked(user, _, _, _, correlation, _, status, invoked, now) => Token(user) && Token(correlation) && Token(status) && Token(invoked) && now != 0
    case SimulatorInvoked(user, _, _, _, _, correlation, _, _, status, invoked, now) => Token(user) && Token(correlation) && Token(status) && Token(invoked) && now != 0
    case _ => true
  }

  ghost predicate AllPublishable(t: Sys) {
    forall e :: e in t.platform.events ==> Outbox.Publishable(e, t.platform.events[e])
  }

  // What a platform step adds is waiting, and tidy if the step is.
  ghost predicate Adds(s: Sys, t: Sys, tidy: bool, now: int) {
    && Announcements.OnlyWaiting(s.platform.events, t.platform.events, now)
    && (tidy ==> forall e :: e in t.platform.events && e !in s.platform.events ==> Outbox.Publishable(e, t.platform.events[e]))
  }

  lemma CallbackAdds(s: Sys, step: Step)
    requires Inv(s) && Enabled(s, step) && step.CallbackReceived?
    ensures Adds(s, Next(s, step), Tidy(step), step.now)
  {
    hide Inv, ApplyCallback, Authentic, Outbox.Publishable, Announcements.OnlyWaiting, Token;
    var c := s.app.callbacks[step.delivery];
    QueuedIsNamed(s, step.delivery);
    Announcements.CallbackIsAnnounced(s.platform, c.tenant, c.installation, step.delivery, c.body, step.correlation, step.event, step.now);
    CallbackActorIsToken();
  }

  lemma CallbackActorIsToken()
    ensures Token("app-callback")
  {
  }

  lemma QueuedIsNamed(s: Sys, d: Id)
    requires Inv(s) && d in s.app.callbacks
    ensures Named(s.app.callbacks[d].tenant, s.app.callbacks[d].installation)
  {
    hide AppRecords, AppAnnounced, History, GoodRows, Linked, PaymentSeen.SeenInv, LogInv, CoreInv, ValidPayment, Queued;
    var c := s.app.callbacks[d];
    assert Genuine(s.app.resources, c.tenant, c.installation, c.body.resource);
    assert AppKey(c.tenant, c.installation, c.body.resource.id) in s.app.resources;
  }

  lemma AnsweredIsNamed(s: Sys, inv: Invocation)
    requires Inv(s) && Answered(s, inv) && s.app.idempotency[RequestKey(inv.tenant, inv.installation, inv.key)].response.resource.Some?
    ensures Named(inv.tenant, inv.installation)
  {
    hide AppQueue, AppAnnounced, History, GoodRows, Linked, PaymentSeen.SeenInv, LogInv, CoreInv, ValidPayment, Queued;
    var q := RequestKey(inv.tenant, inv.installation, inv.key);
    var r := s.app.idempotency[q].response.resource.value;
    assert Genuine(s.app.resources, q.tenant, q.installation, r);
    assert AppKey(q.tenant, q.installation, r.id) in s.app.resources;
  }

  lemma RemoteAdds(s: Sys, step: Step)
    requires Inv(s) && Enabled(s, step) && step.RemoteInvoked?
    ensures Adds(s, Next(s, step), Tidy(step), step.now)
  {
    hide Inv, CapabilityTables.Execute, Outbox.Publishable, Announcements.OnlyWaiting, Token, DerivedKey, Plausible;
    var inv := Call(step.user, step.tenant, step.ins, step.key, step.req);
    var a := s.app.idempotency[RequestKey(step.tenant, step.ins, inv.key)].response;
    var run := _ => RemoteAnswer(step.ins, PaymentV1, step.req, a);
    Announcements.InvocationIsAnnounced(s.platform, step.user, step.tenant, PaymentV1, step.ins, step.key, step.correlation, step.req, run, step.status, step.invoked, step.now);
    var (q, r) := CapabilityTables.Execute(s.platform, step.user, step.tenant, PaymentV1, step.ins, step.key, step.correlation, step.req, run, step.status, step.invoked, step.now);
    assert Next(s, step) == s.(platform := q);
    if q != s.platform {
      AcceptedIsPlausible(s.platform, step.user, step.tenant, step.ins, step.key, step.correlation, step.req, a, step.status, step.invoked, step.now);
      AnsweredIsNamed(s, inv);
    }
  }

  lemma AcceptedIsPlausible(p: Platform, user: Id, tenant: Id, ins: Id, key: string, correlation: string, req: Request, a: Response, status: Id, invoked: Id, now: int)
    requires CapabilityTables.Execute(p, user, tenant, PaymentV1, ins, key, correlation, req, _ => RemoteAnswer(ins, PaymentV1, req, a), status, invoked, now).0 != p
    ensures a.resource.Some?
  {
    hide Store, NewRow, Token;
  }

  lemma SimulatorAdds(s: Sys, step: Step)
    requires Inv(s) && Enabled(s, step) && step.SimulatorInvoked?
    ensures Adds(s, Next(s, step), Tidy(step), step.now)
  {
    hide Inv, CapabilityTables.Execute, Simulate, Outbox.Publishable, Announcements.OnlyWaiting, Token, Unused;
    var run := current => Simulate(step.cap, step.req, current, step.newId);
    Announcements.InvocationIsAnnounced(s.platform, step.user, step.tenant, step.cap, step.ins, step.key, step.correlation, step.req, run, step.status, step.invoked, step.now);
    var (q, r) := CapabilityTables.Execute(s.platform, step.user, step.tenant, step.cap, step.ins, step.key, step.correlation, step.req, run, step.status, step.invoked, step.now);
    assert Next(s, step) == s.(platform := q);
  }

  lemma AddingKeeps(s: Sys, t: Sys, tidy: bool, now: int)
    requires Untried(s) && Adds(s, t, tidy, now)
    ensures Untried(t) && (tidy && AllPublishable(s) ==> AllPublishable(t))
  {
    hide Outbox.Publishable;
  }

  lemma NextStaysUntried(s: Sys, step: Step)
    requires Inv(s) && Untried(s) && !step.EventReplayed? && !step.EventAttempted?
    ensures Untried(Next(s, step)) && (Tidy(step) && AllPublishable(s) ==> AllPublishable(Next(s, step)))
  {
    hide Inv, Adds, ApplyCallback, InvokeRemote, CapabilityTables.Execute, RemoteApp.Execute, Apply, Authentic, Unused, Untried, AllPublishable, Tidy, Callbacks.Attempt;
    if Enabled(s, step) && step.CallbackReceived? {
      CallbackAdds(s, step);
      AddingKeeps(s, Next(s, step), Tidy(step), step.now);
    } else if Enabled(s, step) && step.RemoteInvoked? {
      RemoteAdds(s, step);
      AddingKeeps(s, Next(s, step), Tidy(step), step.now);
    } else if Enabled(s, step) && step.SimulatorInvoked? {
      SimulatorAdds(s, step);
      AddingKeeps(s, Next(s, step), Tidy(step), step.now);
    } else {
      assert Next(s, step).platform == s.platform;
      SameOutbox(s, Next(s, step));
    }
  }

  lemma SameOutbox(s: Sys, t: Sys)
    requires t.platform == s.platform
    ensures Untried(s) ==> Untried(t)
    ensures AllPublishable(s) ==> AllPublishable(t)
  {
    hide Outbox.Publishable;
  }

  lemma {:induction false} RunStaysUntried(s: Sys, steps: seq<Step>)
    requires Start(s) && NoDelivery(steps)
    ensures Untried(Run(s, steps)) && ((forall i :: 0 <= i < |steps| ==> Tidy(steps[i])) ==> AllPublishable(Run(s, steps)))
  {
    hide Start, Inv, Next, Untried, AllPublishable, Tidy;
    if steps == [] {
      StartIsUntried(s);
    } else {
      var rest, last := steps[..|steps| - 1], steps[|steps| - 1];
      assert NoDelivery(rest) && !last.EventReplayed? && !last.EventAttempted?;
      RunStaysUntried(s, rest);
      EveryRunIsSafe(s, rest);
      NextStaysUntried(Run(s, rest), last);
    }
  }

  lemma StartIsUntried(s: Sys)
    requires Start(s)
    ensures Untried(s) && AllPublishable(s)
  {
  }

  // No event is born lost: after any run in which nothing was delivered yet, every event
  // that the contract accepts can still arrive, and with the ids that services hand out
  // that is every event, so that the consumer can come to agree about every payment.
  lemma NothingIsBornLost(s: Sys, steps: seq<Step>) returns (more: seq<Step>)
    requires Start(s) && NoDelivery(steps)
    ensures var t := Run(s, steps); forall e :: e in t.platform.events ==> (InInbox(Run(t, more), e) <==> Outbox.Publishable(e, t.platform.events[e]))
    ensures NoReplay(more) && ((forall i :: 0 <= i < |steps| ==> Tidy(steps[i])) ==> forall key :: AllTaken(Run(Run(s, steps), more), key))
  {
    hide Start, Run, Inv, AllTaken, InInbox, Outbox.Publishable, Tidy;
    var t := Run(s, steps);
    assert Reachable(t);
    RunStaysUntried(s, steps);
    more := EverythingDeliverableArrives(t);
    forall e | e in t.platform.events
      ensures Deliverable(t, e) <==> Outbox.Publishable(e, t.platform.events[e])
    {
      ReachableIsSafe(t);
      if Posted(t.platform.events[e].envelope) in t.log {
        PostedIsPublishable(t, e);
      }
    }
    forall key | AllPublishable(t)
      ensures AllTaken(Run(t, more), key)
    {
      TakenOneByOne(Run(t, more), key);
    }
  }

  lemma PostedIsPublishable(t: Sys, e: Id)
    requires Inv(t) && e in t.platform.events && Posted(t.platform.events[e].envelope) in t.log
    ensures Outbox.Publishable(e, t.platform.events[e])
  {
    hide PaymentsInv, CoreInv, Subject, ValidEnvelope;
    var i :| 0 <= i < |t.log| && t.log[i] == Posted(t.platform.events[e].envelope);
    assert Logged(t.platform.events, t.log[i]);
    IdsStand(t, e);
  }
}
