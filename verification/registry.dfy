// The registry of signed releases: rows that are never changed, each verified whenever
// it is read, so that an app has one manifest for good.
module Registry {
  import opened Base
  import opened Consent
  import opened LifecycleTables

  datatype ReleaseKey = ReleaseKey(app: Id, version: string)

  // `genuine`: the signature and the fixed fields of the manifest are in order (schema,
  // developer, runtime, compatibility, artifact, subscriptions, provider binding).
  datatype Signed = Signed(manifest: Manifest, genuine: bool)

  const VERSION := "1.0.0"
  const REMOTE_ID := "remote-pay"

  // VerifyLocal
  predicate Verified(s: Signed) {
    var m := s.manifest;
    && s.genuine && m.version == VERSION
    && match m.profile
       case ShippingFixture => m.scopes == ["shipping.read"] && m.capabilities == ["shipping/v1"]
       case KurirFixture => m.app == KURIR_ID && m.scopes == ["shipping.read"] && m.capabilities == ["shipping/v1"]
       case LocalSimulator => Standard(m)
       case LocalRemote => m.app == REMOTE_ID && m.capabilities == ["payment/v1"] && Standard(m)
       case _ => false
  }

  predicate Standard(m: Manifest) {
    || (m.capabilities == ["payment/v1"] && m.scopes == ["orders.read", "payments.read", "payments.write"])
    || (m.capabilities == ["shipping/v1"] && m.scopes == ["orders.read", "shipping.read", "shipping.write"])
  }

  function KeyOf(m: Manifest): ReleaseKey {
    ReleaseKey(m.app, m.version)
  }

  // Every row stands under the key of its manifest: its only writers put it there.
  ghost predicate Keyed(rows: map<ReleaseKey, Signed>) {
    forall k :: k in rows ==> KeyOf(rows[k].manifest) == k
  }

  // INSERT ... ON CONFLICT DO NOTHING; updates and deletes are refused by a trigger.
  function Publish(rows: map<ReleaseKey, Signed>, s: Signed): map<ReleaseKey, Signed> {
    if KeyOf(s.manifest) in rows then rows else rows[KeyOf(s.manifest) := s]
  }

  // One row that does not verify makes every answer unavailable.
  ghost function Get(rows: map<ReleaseKey, Signed>, app: Id): Result<Manifest> {
    if exists k :: k in rows && !Verified(rows[k]) then Err(Unavailable)
    else if k :| k in rows && rows[k].manifest.app == app then Ok(rows[k].manifest)
    else Err(NotFound)
  }

  ghost predicate Extends(a: map<ReleaseKey, Signed>, b: map<ReleaseKey, Signed>) {
    forall k :: k in a ==> k in b && b[k] == a[k]
  }

  lemma PublishKeeps(rows: map<ReleaseKey, Signed>, s: Signed)
    requires Keyed(rows)
    ensures Keyed(Publish(rows, s)) && Extends(rows, Publish(rows, s))
  {
  }

  // What the registry answers about an app is the one row of that app.
  lemma AnswerIsTheRow(rows: map<ReleaseKey, Signed>, app: Id)
    requires Keyed(rows) && Get(rows, app).Ok?
    ensures ReleaseKey(app, VERSION) in rows && Get(rows, app).value == rows[ReleaseKey(app, VERSION)].manifest && Verified(rows[ReleaseKey(app, VERSION)])
    ensures var row := rows[ReleaseKey(app, "1.0.0")]; row.genuine && row.manifest.app == app && row.manifest.version == "1.0.0" && (row.manifest.profile.LocalRemote? ==> app == "remote-pay")
  {
  }

  // The rows after these releases were published, one after the other.
  function Published(rows: map<ReleaseKey, Signed>, releases: seq<Signed>): map<ReleaseKey, Signed> {
    if releases == [] then rows else Publish(Published(rows, releases[..|releases| - 1]), releases[|releases| - 1])
  }

  lemma {:induction false} PublishedExtends(rows: map<ReleaseKey, Signed>, releases: seq<Signed>)
    requires Keyed(rows)
    ensures Keyed(Published(rows, releases)) && Extends(rows, Published(rows, releases))
  {
    if releases != [] {
      PublishedExtends(rows, releases[..|releases| - 1]);
      PublishKeeps(Published(rows, releases[..|releases| - 1]), releases[|releases| - 1]);
    }
  }

  // An app has one manifest for good: whatever was published before the first of two
  // answers about it, and whatever between them, they are equal.
  lemma OneManifestForGood(before: seq<Signed>, between: seq<Signed>, app: Id)
    requires Get(Published(map[], before), app).Ok? && Get(Published(Published(map[], before), between), app).Ok?
    ensures Get(Published(map[], before), app) == Get(Published(Published(map[], before), between), app)
  {
    hide Get, Verified, Published;
    var first := Published(map[], before);
    PublishedExtends(map[], before);
    PublishedExtends(first, between);
    AnswerIsTheRow(first, app);
    AnswerIsTheRow(Published(first, between), app);
  }

  class Releases {
    var rows: map<ReleaseKey, Signed>

    ghost predicate Valid()
      reads this
    {
      Keyed(rows)
    }

    constructor ()
      ensures rows == map[] && Valid()
    {
      rows := map[];
    }

    method Insert(s: Signed)
      requires Valid()
      modifies this
      ensures Valid() && rows == Publish(old(rows), s)
    {
      PublishKeeps(rows, s);
      if KeyOf(s.manifest) !in rows {
        rows := rows[KeyOf(s.manifest) := s];
      }
    }

    // The verified manifests of all rows, or the refusal of one that does not verify.
    method List() returns (r: Result<seq<Manifest>>)
      ensures r.Ok? <==> forall k :: k in rows ==> Verified(rows[k])
      ensures r.Ok? ==> forall m :: m in r.value <==> exists k :: k in rows && rows[k].manifest == m
      ensures r.Err? ==> r.fault == Unavailable
    {
      hide Verified;
      var rest, manifests := rows.Keys, [];
      while rest != {}
        invariant rest <= rows.Keys
        invariant forall k :: k in rows.Keys - rest ==> Verified(rows[k]) && rows[k].manifest in manifests
        invariant forall m :: m in manifests ==> exists k :: k in rows && rows[k].manifest == m
        decreases |rest|
      {
        var k :| k in rest;
        rest := rest - {k};
        if !Verified(rows[k]) {
          return Err(Unavailable);
        }
        manifests := manifests + [rows[k].manifest];
      }
      r := Ok(manifests);
    }

    // The first manifest with this id; in whatever order they are listed, there is but one.
    method Find(app: Id) returns (r: Result<Manifest>)
      requires Valid()
      ensures r == Get(rows, app)
    {
      var all := List();
      if all.Err? {
        return Err(all.fault);
      }
      for i := 0 to |all.value|
        invariant forall j :: 0 <= j < i ==> all.value[j].app != app
      {
        if all.value[i].app == app {
          assert all.value[i] in all.value;
          AnswerIsTheRow(rows, app);
          return Ok(all.value[i]);
        }
      }
      forall k | k in rows
        ensures rows[k].manifest.app != app
      {
        assert rows[k].manifest in all.value;
      }
      r := Err(NotFound);
    }
  }
}
