// The versioned wire contract: envelopes, the payment status payload and the
// checks a publisher and a consumer both run.
module Events {
  import opened Base

  datatype Status = Authorized | Captured | Refunded | Unrecognized(text: string)

  // 0 marks a status the contract does not know.
  function Rank(s: Status): nat {
    match s
    case Authorized => 1
    case Captured => 2
    case Refunded => 3
    case Unrecognized(_) => 0
  }

  // A complete snapshot of one payment as the platform announces it.
  datatype StatusEvent = StatusEvent(
    resource: Id, installation: Id, reference: string, status: Status,
    amountMinor: int, currency: string, revision: int, simulation: bool)

  const MAX_AMOUNT := 1_000_000_000_000

  predicate ValidMoney(amountMinor: int, currency: string) {
    0 < amountMinor <= MAX_AMOUNT && currency == "IDR"
  }

  predicate ValidStatus(p: StatusEvent) {
    && Token(p.resource) && Token(p.installation) && Token(p.reference)
    && Rank(p.status) != 0
    && ValidMoney(p.amountMinor, p.currency)
    && 1 <= p.revision <= MAX_AMOUNT
    && p.simulation
  }

  datatype EventType =
    | AppInstalled | AppActivated | AppDisabling | AppUninstalled
    | CapabilityInvoked | PaymentStatusChanged | Unsupported(name: string)

  function TypeName(t: EventType): string {
    match t
    case AppInstalled => "emisell.app.installed.v1"
    case AppActivated => "emisell.app.activated.v1"
    case AppDisabling => "emisell.app.disabling.v1"
    case AppUninstalled => "emisell.app.uninstalled.v1"
    case CapabilityInvoked => "emisell.capability.invoked.v1"
    case PaymentStatusChanged => "emisell.payment.status_changed.v1"
    case Unsupported(name) => name
  }

  datatype Payload = NoPayload | Payment(status: StatusEvent) | Details(text: string)

  datatype Envelope = Envelope(
    id: Id, kind: EventType, version: int, occurredAt: int, tenant: Id, subject: Id,
    actor: Id, correlation: string, causation: string, producer: string, payload: Payload)

  const PRODUCER := "emisell-app-platform"

  // event.New: everything the platform emits is built here.
  function NewEvent(id: Id, kind: EventType, now: int, tenant: Id, actor: Id, subject: Id, correlation: string, payload: Payload): Envelope {
    Envelope(id, kind, 1, now, tenant, subject, actor, correlation, correlation, PRODUCER, payload)
  }

  predicate PaymentEnvelope(e: Envelope) {
    e.kind == PaymentStatusChanged && e.payload.Payment?
  }

  // events.DecodePayment succeeds.
  predicate DecodesPayment(e: Envelope) {
    PaymentEnvelope(e) && e.subject == e.payload.status.resource && ValidStatus(e.payload.status)
  }

  predicate ValidEnvelope(e: Envelope) {
    && Token(e.id) && Token(e.tenant) && Token(e.subject) && Token(e.actor)
    && Token(e.correlation) && Token(e.causation)
    && e.version == 1 && e.occurredAt != 0 && e.producer == PRODUCER && !e.payload.NoPayload?
    && !e.kind.Unsupported?
    && (e.kind.PaymentStatusChanged? ==> DecodesPayment(e))
  }

  function Subject(e: Envelope): string {
    "emisell.events." + e.tenant + "." + TypeName(e.kind)
  }

  // Bytes as they travel: either they do not parse (or are too large), or they
  // carry an envelope.
  datatype Wire = Garbage | Encoded(envelope: Envelope)

  predicate Decodes(raw: Wire) {
    raw.Encoded? && ValidEnvelope(raw.envelope)
  }

  // What a broker stream stores.
  datatype Message = Message(subject: string, raw: Wire)

  // How the publisher puts an envelope on the wire.
  function Posted(e: Envelope): Message {
    Message(Subject(e), Encoded(e))
  }
}
