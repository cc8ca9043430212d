// What is installed and who agreed to it: releases, consent records and the
// closed list of what a release may be granted.
module Consent {
  import opened Base

  datatype Policy = LocalFixture | ManagedShipping | ProviderApp | ResourceApp | ReviewedUi | EmbeddedPilot | OtherPolicy(name: string)

  datatype Profile =
    | LocalSimulator | LocalRemote | KurirFixture | ShippingFixture
    | ManagedShippingLocal | ProviderAppLocal
    | ResourceAppProfile | ReviewedUiProfile | EmbeddedPilotProfile | OtherProfile(name: string)

  datatype Binding = Binding(engine: string, provider: string)

  datatype Source = Source(release: Id, assignment: Id, merchant: Id, environment: string)

  // What a resource app declares: its release, its client and its access scopes.
  datatype ResourceBinding = ResourceBinding(release: Id, client: Id, required: seq<string>, optional: seq<string>)

  // An immutable release snapshot. `ui`: it carries a UI binding. `details` stands for
  // every other field that enters the consent digest.
  datatype Release = Release(
    policy: Policy, app: Id, version: string, manifest: string, scopes: seq<string>, capabilities: seq<string>,
    profile: Profile, binding: Option<Binding>, source: Option<Source>, ui: bool, resource: Option<ResourceBinding>, details: string)

  predicate Engine(p: Profile) {
    p.ManagedShippingLocal? || p.ProviderAppLocal?
  }

  predicate ShippingProvider(p: Profile) {
    p.ShippingFixture? || Engine(p)
  }

  // Provider apps never take part in capability routing.
  function Routed(r: Release): seq<string> {
    if ShippingProvider(r.profile) then [] else r.capabilities
  }

  const KURIR_ID := "api-kurir-reference"

  const PILOT_ID := "embedded-local-demo"

  // `scopes` is the canonical form of what was declared as required.
  predicate Canonical(scopes: seq<string>, required: seq<string>) {
    multiset(scopes) == multiset(required) && Sorted(scopes)
  }

  // What the lifecycle itself checks of a resource app's release.
  predicate ResourceShaped(r: Release) {
    && r.profile.ResourceAppProfile? && r.resource.Some? && r.source.None? && r.binding.None? && r.capabilities == []
    && ManagedId(r.app) && r.resource.value.release != "" && r.resource.value.client != ""
    && r.scopes != [] && Canonical(r.scopes, r.resource.value.required)
  }

  // Apps with a registry of their own carry this prefix.
  predicate ManagedId(app: Id) {
    "app_" <= app
  }

  const READ_SCOPES := ["read_products", "read_orders", "read_shipping", "read_catalogs", "read_collections", "read_inventory", "read_locations"]

  // The reviewed read scopes, each once, in order.
  predicate ReviewedScopes(scopes: seq<string>) {
    1 <= |scopes| <= 7 && (forall i :: 0 <= i < |scopes| ==> scopes[i] in READ_SCOPES && (i > 0 ==> Before(scopes[i - 1], scopes[i])))
  }

  // A resource app is ready only if one of three sources says so: the reviewed user
  // interfaces with resources, the signed resource releases, or an owner's private
  // version, which the source builds itself.
  predicate UiSourceAdmits(r: Release, b: ResourceBinding) {
    r.ui && ReviewedScopes(r.scopes) && b.required == r.scopes && b.optional == []
  }

  predicate SignedSourceAdmits(r: Release, b: ResourceBinding) {
    !r.ui && r.scopes == ["read_products"] && Canonical(r.scopes, b.required) && b.optional == []
  }

  predicate PrivateSourceAdmits(r: Release, b: ResourceBinding) {
    "privateversion_" <= b.release && "eai_" <= b.client && !r.ui && r.scopes == ["read_products"] && b.required == ["read_products"] && b.optional == []
  }

  predicate SourceAdmits(r: Release) {
    r.resource.Some? && (UiSourceAdmits(r, r.resource.value) || SignedSourceAdmits(r, r.resource.value) || PrivateSourceAdmits(r, r.resource.value))
  }

  predicate UiShaped(r: Release) {
    r.profile.ReviewedUiProfile? && r.ui && r.source.None? && r.binding.None? && r.scopes == [] && r.capabilities == []
  }

  // The one release that the pilot's enrollment builds.
  predicate PilotShaped(r: Release) {
    r.app == PILOT_ID && r.version == "1.0.0" && r.profile.EmbeddedPilotProfile? && r.scopes == [] && r.capabilities == []
  }

  // Whatever else they ask: identifier formats, digests, signatures, assignments.
  function Managed(r: Release, shaped: bool, current: Result<Release>, special: Result<()>): Result<()> {
    if current != Ok(r) || !shaped then Err(Forbidden) else special
  }

  // The eligibility check before consumption, activation and tokens. `current` is
  // the release as its registry has it now, `special` what remains of the verdict of
  // the policies that have their own registries.
  function Eligible(r: Release, current: Result<Release>, special: Result<()>): Result<()> {
    if r.policy.ResourceApp? then Managed(r, ResourceShaped(r) && SourceAdmits(r), current, special)
    else if r.resource.Some? then Err(Forbidden)
    else if r.policy.ReviewedUi? then Managed(r, UiShaped(r), current, special)
    else if r.policy.EmbeddedPilot? then Managed(r, PilotShaped(r), current, special)
    else if r.policy.OtherPolicy? then Err(Conflict)
    else if current.Err? then Err(current.fault)
    else if current.value != r then Err(Conflict)
    else Closed(r)
  }

  // What eligibility once found of a release for good.
  predicate Shaped(r: Release) {
    match r.policy
    case ResourceApp => ResourceShaped(r) && SourceAdmits(r)
    case ReviewedUi => UiShaped(r)
    case EmbeddedPilot => PilotShaped(r)
    case OtherPolicy(_) => false
    case _ => Closed(r).Ok?
  }

  // The closed allowlist of permissions per profile.
  function Closed(r: Release): Result<()> {
    var shipping := r.capabilities == ["shipping/v1"];
    match r.profile
    case ProviderAppLocal =>
      if !r.policy.ProviderApp? || r.source.None? || r.source.value.merchant == "" || r.source.value.environment == ""
         || r.binding.None? || r.binding.value.engine != "api-kurir" || r.binding.value.provider == "" || !shipping then Err(Forbidden)
      else if r.scopes != ["shipping.read"] && r.scopes != ["shipping.read", "shipping.write"] then Err(Forbidden)
      else Ok(())
    case ManagedShippingLocal =>
      if !r.policy.ManagedShipping? || r.source.None? || r.source.value.environment != "local-isolated"
         || r.binding.None? || r.binding.value.engine != "api-kurir" || r.binding.value.provider != "emisell" || !shipping then Err(Forbidden)
      else Exactly(r, ["shipping.read"])
    case ShippingFixture =>
      if r.binding.None? || !shipping then Err(Forbidden) else Exactly(r, ["shipping.read"])
    case KurirFixture =>
      if r.app != KURIR_ID || !shipping then Err(Forbidden) else Exactly(r, ["shipping.read"])
    case _ =>
      if shipping then Exactly(r, ["orders.read", "shipping.read", "shipping.write"])
      else if r.capabilities != ["payment/v1"] then Err(Forbidden)
      else Exactly(r, ["orders.read", "payments.read", "payments.write"])
  }

  function Exactly(r: Release, want: seq<string>): Result<()> {
    if r.scopes == want then Ok(()) else Err(Forbidden)
  }

  datatype Owner = Owner(service: Id, actor: Id)

  datatype Decision = Undecided | Consented | Denied

  datatype Intent = Intent(owner: Owner, release: Release, state: Decision, createdAt: int, expiresAt: int, decidedAt: Option<int>)

  // The hash over the fixed-shape snapshot is injective, so the snapshot stands for it.
  datatype Digest = Digest(id: Id, owner: Owner, release: Release, createdAt: int, expiresAt: int)

  const TTL := 600

  function NewIntent(owner: Owner, release: Release, now: int): Intent {
    Intent(owner, release, Undecided, now, now + TTL, None)
  }

  function DigestOf(id: Id, i: Intent): Digest {
    Digest(id, i.owner, i.release, i.createdAt, i.expiresAt)
  }

  // An undecided or consented intent counts only before it expires.
  predicate Live(i: Intent, now: int) {
    now < i.expiresAt
  }

  function Decide(id: Id, i: Intent, digest: Digest, consent: bool, now: int): Result<Decision> {
    if !i.state.Undecided? || !Live(i, now) then Err(Conflict)
    else if digest != DigestOf(id, i) then Err(Conflict)
    else Ok(if consent then Consented else Denied)
  }
}
