// The lifecycle notices as outbox events: which of them the publisher will send.
module LifecycleNotices {
  import opened Base
  import opened Events
  import CapabilityTables
  import LifecycleTables
  import Outbox

  // ^[A-Za-z0-9_-]{16,128}$: what a request key may look like.
  predicate KeyPattern(s: string) {
    16 <= |s| && Token(s)
  }

  function KindOf(s: LifecycleTables.Status): EventType {
    match s
    case Pending => AppInstalled
    case Active => AppActivated
    case Disabling => AppDisabling
    case Uninstalled => AppUninstalled
  }

  // The envelope of a notice on the consent path: the owner's actor acted, the
  // request key is the correlation.
  function Announcement(id: Id, n: LifecycleTables.Notice, tenant: Id, actor: Id, key: string, now: int): Envelope {
    NewEvent(id, KindOf(n.status), now, tenant, actor, n.installation, key, Details("appId,name,version,status,scopes"))
  }

  // A notice says under its type what became of the installation, on the tenant's subject
  // for that type.
  lemma NoticesNameTheStatus(id: Id, n: LifecycleTables.Notice, tenant: Id, actor: Id, key: string, now: int)
    ensures var e := Announcement(id, n, tenant, actor, key, now);
            && e.subject == n.installation && e.tenant == tenant && e.actor == actor && e.correlation == key && e.occurredAt == now
            && Subject(e) == "emisell.events." + tenant + "." + match n.status
                                                                case Pending => "emisell.app.installed.v1"
                                                                case Active => "emisell.app.activated.v1"
                                                                case Disabling => "emisell.app.disabling.v1"
                                                                case Uninstalled => "emisell.app.uninstalled.v1"
  {
  }

  // The lifecycle accepts any opaque id as actor, the event contract only tokens:
  // a notice can be published if and only if its actor is a token.
  lemma PublishableExactlyWhen(id: Id, n: LifecycleTables.Notice, tenant: Id, actor: Id, key: string, now: int)
    requires Token(id) && Token(tenant) && Token(n.installation) && KeyPattern(key) && OpaqueId(actor) && now != 0
    ensures Outbox.Publishable(id, CapabilityTables.NewRow(Announcement(id, n, tenant, actor, key, now))) <==> Token(actor)
    ensures Token(actor) <==> forall i :: 0 <= i < |actor| ==> actor[i] !in ".:@"
  {
    if forall i :: 0 <= i < |actor| ==> actor[i] !in ".:@" {
      assert Token(actor);
    } else {
      var i :| 0 <= i < |actor| && actor[i] in ".:@";
      assert !TokenChar(actor[i]);
    }
  }

  // Otherwise its first delivery attempt kills it, whatever the broker would say;
  // a replay only repeats that.
  lemma OtherNoticesDieAtOnce(id: Id, n: LifecycleTables.Notice, tenant: Id, actor: Id, key: string, now: int, p: Outbox.Publish, at: int)
    requires Token(id) && Token(tenant) && Token(n.installation) && KeyPattern(key) && OpaqueId(actor) && now != 0 && !Token(actor)
    ensures var row := Outbox.Attempt(id, CapabilityTables.NewRow(Announcement(id, n, tenant, actor, key, now)), p, at);
            && row.dead && !row.published && row.attempts == 1
            && (forall q, when :: Outbox.Replay(row, at).Ok? && Outbox.Attempt(id, Outbox.Replay(row, at).value, q, when).dead)
  {
    hide Backoff;
    PublishableExactlyWhen(id, n, tenant, actor, key, now);
    var row := Outbox.Attempt(id, CapabilityTables.NewRow(Announcement(id, n, tenant, actor, key, now)), p, at);
    assert !Outbox.Publishable(id, row);
    if Outbox.Replay(row, at).Ok? {
      assert !Outbox.Publishable(id, Outbox.Replay(row, at).value);
    }
  }

  // An e-mail address is such an actor.
  lemma AddressesAreNotPublished()
    ensures OpaqueId("owner@shop.example") && !Token("owner@shop.example")
  {
    assert "owner@shop.example"[5] == '@';
  }
}
