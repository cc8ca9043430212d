// Payment status propagation: what holds in every state of every run, and where
// all orders, repetitions and crashes end up.
module PipelineTheorems {
  import opened Base
  import opened Events
  import opened CapabilityTables
  import opened CoreInbox
  import opened PaymentHistory
  import opened PaymentSeen
  import opened Pipeline
  import opened PipelineLinks
  import opened PipelineDelivery
  import PipelineApp
  import Callbacks
  import Outbox

  ghost predicate Inv(s: Sys) {
    PaymentsInv(s) && LogInv(s.platform.events, s.log) && CoreInv(s.platform.events, s.core)
  }

  // Where runs begin: nothing queued, recorded, announced or taken. Payments from
  // before revisions existed may be present, as long as both sides agree on them.
  ghost predicate Start(s: Sys) {
    && s.app.idempotency == map[] && s.app.callbacks == map[]
    && AppRows(s.app.resources) && (forall k :: k in s.app.resources ==> s.app.resources[k].revision == 0)
    && s.platform.events == map[] && s.platform.inbox == map[] && s.platform.receipts == map[]
    && GoodRows(s.platform) && (forall key :: key in s.platform.resources ==> s.platform.resources[key].statusRevision == 0)
    && Linked(s.simulated, s.app.resources, s.platform.resources) && OnlyRemote(s.simulated, s.app.resources)
    && s.log == [] && s.core == Core(map[], map[], map[], map[])
  }

  lemma StartHolds(s: Sys)
    requires Start(s)
    ensures Inv(s)
  {
    hide ValidPayment, Genuine;
    assert forall tenant, kind :: Entries(s.core.inbox, tenant, kind) == {};
  }

  lemma SettledKeeps(s: Sys, delivery: Id, granted: bool, reply: Callbacks.Reply, now: int)
    requires PaymentsInv(s) && delivery in s.app.callbacks
    ensures PaymentsInv(s.(app := s.app.(callbacks := s.app.callbacks[delivery := Callbacks.Attempt(s.app.callbacks[delivery], granted, reply, now)])))
  {
    hide AppInv, Genuine, History, GoodRows, Linked, SeenInv;
    PipelineApp.AttemptKeeps(s.app, delivery, Callbacks.Attempt(s.app.callbacks[delivery], granted, reply, now));
  }

  // A platform transaction that only adds events keeps the broker and the
  // consumer in step.
  lemma PlatformStepKeeps(s: Sys, q: Platform)
    requires Inv(s) && PaymentsInv(s.(platform := q)) && RowsAdvance(s.platform, q)
    ensures Inv(s.(platform := q))
  {
    hide PaymentsInv, LogInv, CoreInv, Advances;
    NewEventsKeepLog(s.platform.events, q.events, s.log);
    KeptKeepsCore(s.platform.events, q.events, s.core);
  }

  lemma OutboxStepKeeps(s: Sys, event: Id, row: OutboxRow, log: seq<Message>)
    requires Inv(s) && event in s.platform.events
    requires row.envelope == s.platform.events[event].envelope && row.tenant == s.platform.events[event].tenant
    requires LogInv(s.platform.events[event := row], log)
    ensures Inv(s.(platform := s.platform.(events := s.platform.events[event := row]), log := log))
  {
    hide LogInv, CoreInv, AppInv, Linked, Sound, Ordered, Complete, GoodRow, Matches, SeenInv;
    var q := s.platform.(events := s.platform.events[event := row]);
    BookkeepingKeepsHistory(s.platform, q);
    KeptKeepsCore(s.platform.events, q.events, s.core);
    assert SeenInv(q) by { SeenIgnoresEvents(s.platform, q); }
  }

  lemma SeenIgnoresEvents(p: Platform, q: Platform)
    requires SeenInv(p) && q == p.(events := q.events)
    ensures SeenInv(q)
  {
    forall key | key in q.resources && q.resources[key].capability.PaymentV1? && q.resources[key].statusRevision >= 1
      ensures Seen(q, key, q.resources[key].data)
    {
      SeenKept(p, q, key, q.resources[key].data);
    }
  }

  // ------------------------------------------------------------------ every run

  lemma PlatformChoiceKeeps(s: Sys, step: Step)
    requires Inv(s) && Enabled(s, step) && (step.CallbackReceived? || step.RemoteInvoked? || step.SimulatorInvoked?)
    ensures Inv(Next(s, step))
  {
    hide PaymentsInv, LogInv, CoreInv, ApplyCallback, InvokeRemote, CapabilityTables.Execute, RowsAdvance, Authentic, Simulate;
    match step
    case CallbackReceived(delivery, correlation, event, now) =>
      var c := s.app.callbacks[delivery];
      var (q, r) := ApplyCallback(s.platform, c.tenant, c.installation, delivery, c.body, correlation, event, now);
      CallbackStepKeeps(s, delivery, c, correlation, event, now, q, r);
      PlatformStepKeeps(s, q);
    case RemoteInvoked(user, tenant, ins, key, correlation, req, status, invoked, now) =>
      var (q, r) := InvokeRemote(s, user, tenant, ins, key, correlation, req, status, invoked, now);
      RemoteStepKeeps(s, user, tenant, ins, key, correlation, req, status, invoked, now, q, r);
      PlatformStepKeeps(s, q);
    case SimulatorInvoked(user, tenant, ins, cap, key, correlation, req, newId, status, invoked, now) =>
      var (q, r) := CapabilityTables.Execute(s.platform, user, tenant, cap, ins, key, correlation, req, current => Simulate(cap, req, current, newId), status, invoked, now);
      SimulatorStepKeeps(s, user, tenant, ins, cap, key, correlation, req, newId, status, invoked, now, q, r);
      PlatformStepKeeps(s, q);
  }

  lemma AppChoiceKeeps(s: Sys, step: Step)
    requires Inv(s) && Enabled(s, step) && (step.AppExecutes? || step.CallbackSettled?)
    ensures Inv(Next(s, step))
  {
    hide PaymentsInv, LogInv, CoreInv, RemoteApp.Execute, Callbacks.Attempt;
    match step
    case AppExecutes(granted, inv, newId, delivery, now) =>
      AppStepKeeps(s, granted, inv, newId, delivery, now);
    case CallbackSettled(delivery, granted, reply, now) =>
      SettledKeeps(s, delivery, granted, reply, now);
  }

  lemma DeliveryChoiceKeeps(s: Sys, step: Step)
    requires Inv(s) && Enabled(s, step) && (step.EventAttempted? || step.EventReplayed? || step.MessageConsumed?)
    ensures Inv(Next(s, step))
  {
    hide AppInv, History, GoodRows, Linked, SeenInv, Queued, OnlyRemote, CoreInv, LogInv, Apply, ValidEnvelope, Subject;
    match step
    case EventAttempted(event, publish, landed, committed, now) =>
      var row := s.platform.events[event];
      var log := if landed then s.log + [Posted(row.envelope)] else s.log;
      if landed {
        LandingKeepsLog(s.platform.events, s.log, event);
        assert log[|s.log|] == Posted(row.envelope);
      }
      if committed {
        AttemptKeepsLog(s.platform.events, log, event, publish, now);
        OutboxStepKeeps(s, event, Outbox.Attempt(event, row, publish, now), log);
      }
    case EventReplayed(event, now) =>
      var row := Outbox.Replay(s.platform.events[event], now);
      if row.Ok? {
        ReplayKeepsLog(s.platform.events, s.log, event, now);
        OutboxStepKeeps(s, event, row.value, s.log);
      }
    case MessageConsumed(position, committed) =>
      if committed {
        ConsumeKeeps(s, position);
      }
  }

  // The consumer takes any message of the log, first time or again: no quarantine.
  lemma ConsumeKeeps(s: Sys, position: nat)
    requires Inv(s) && position < |s.log|
    ensures Logged(s.platform.events, s.log[position])
    ensures var m := s.log[position];
            var (d, outcome) := Apply(s.core, m.raw.envelope.tenant, position + 1, m);
            && CoreInv(s.platform.events, d) && !outcome.Quarantined?
            && d.inbox == s.core.inbox[InboxKey(m.raw.envelope.tenant, m.raw.envelope.id) := m.raw.envelope]
  {
    hide CoreInv, Apply, AppInv, History, Linked, GoodRows, SeenInv;
    var m := s.log[position];
    assert Logged(s.platform.events, m);
    var (d, outcome) := Apply(s.core, m.raw.envelope.tenant, position + 1, m);
    ApplyKeeps(s.platform, s.core, position + 1, m, m.raw.envelope, d, outcome);
  }

  lemma NextKeeps(s: Sys, step: Step)
    requires Inv(s)
    ensures Inv(Next(s, step))
  {
    hide Inv;
    if Enabled(s, step) {
      match step
      case AppExecutes(_, _, _, _, _) => AppChoiceKeeps(s, step);
      case CallbackSettled(_, _, _, _) => AppChoiceKeeps(s, step);
      case CallbackReceived(_, _, _, _) => PlatformChoiceKeeps(s, step);
      case RemoteInvoked(_, _, _, _, _, _, _, _, _) => PlatformChoiceKeeps(s, step);
      case SimulatorInvoked(_, _, _, _, _, _, _, _, _, _, _) => PlatformChoiceKeeps(s, step);
      case EventAttempted(_, _, _, _, _) => DeliveryChoiceKeeps(s, step);
      case EventReplayed(_, _) => DeliveryChoiceKeeps(s, step);
      case MessageConsumed(_, _) => DeliveryChoiceKeeps(s, step);
    }
  }

  // Safety over whole runs.
  lemma {:induction false} EveryRunIsSafe(s: Sys, steps: seq<Step>)
    requires Start(s)
    ensures Inv(Run(s, steps))
  {
    hide Inv, Start, Next;
    if steps == [] {
      StartHolds(s);
    } else {
      EveryRunIsSafe(s, steps[..|steps| - 1]);
      NextKeeps(Run(s, steps[..|steps| - 1]), steps[|steps| - 1]);
    }
  }

  // A state that some run reaches.
  ghost predicate Reachable(t: Sys) {
    exists s, steps :: Start(s) && Pipeline.Run(s, steps) == t
  }

  lemma ReachableIsSafe(t: Sys)
    requires Reachable(t)
    ensures Inv(t)
  {
    hide Inv, Start, Pipeline.Run;
    var s, steps :| Start(s) && Pipeline.Run(s, steps) == t;
    EveryRunIsSafe(s, steps);
  }
}
