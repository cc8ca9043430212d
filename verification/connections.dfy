// The OAuth side of an installation: its connection and the handshakes that may
// establish one.
module Connections {
  import opened Base
  import opened LifecycleTables

  datatype Link = Connected | NeedsConnection | Cut

  datatype Handshake = Handshake(installation: Id, actor: Id, session: string, key: string, expiresAt: int, used: bool)

  datatype OAuth = OAuth(links: map<Id, Link>, states: map<Id, Handshake>)

  function LinkOf(o: OAuth, id: Id): Link {
    if id in o.links then o.links[id] else NeedsConnection
  }

  // The gate's own conditions and the service's check on the row: in use, and the
  // registered app is the remote one with this version and these scopes.
  predicate MayConnect(t: Tables, row: Row, m: Manifest) {
    && (row.status.Pending? || row.status.Active?)
    && (row.status.Active? ==> HasActiveGrant(t, row))
    && m.profile.LocalRemote? && m.version == row.version && m.scopes == row.scopes
  }

  predicate Matching(h: Handshake, id: Id, actor: Id, session: string, key: string, now: int) {
    h.installation == id && h.actor == actor && h.session == session && h.key == key && !h.used && now < h.expiresAt
  }

  // INSERT ... ON CONFLICT DO NOTHING, then the open handshake of this request.
  ghost function Begin(o: OAuth, id: Id, hash: Id, actor: Id, session: string, key: string, expiresAt: int, now: int): (OAuth, Result<Id>) {
    var taken := hash in o.states || exists h :: h in o.states && o.states[h].installation == id && o.states[h].session == session && o.states[h].key == key;
    var u := if taken then o else o.(states := o.states[hash := Handshake(id, actor, session, key, expiresAt, false)]);
    if h :| h in u.states && Matching(u.states[h], id, actor, session, key, now) then (u, Ok(h)) else (o, Err(Conflict))
  }

  // A handshake state is used once, by the actor and session that began it.
  function UseState(o: OAuth, hash: Id, actor: Id, session: string, now: int): (OAuth, Result<Id>) {
    if hash in o.states && o.states[hash].actor == actor && o.states[hash].session == session && !o.states[hash].used && now < o.states[hash].expiresAt
    then (o.(states := o.states[hash := o.states[hash].(used := true)]), Ok(o.states[hash].installation))
    else (o, Err(Invalid))
  }

  function Save(o: OAuth, id: Id, link: Link): OAuth {
    o.(links := o.links[id := link])
  }

  // Cuts the connection and spends every open handshake of the installation.
  function Invalidate(o: OAuth, id: Id): OAuth {
    OAuth(o.links[id := Cut], map h | h in o.states :: if o.states[h].installation == id then o.states[h].(used := true) else o.states[h])
  }

  // Nothing is left of the installation's access.
  ghost predicate Clean(o: OAuth, id: Id) {
    LinkOf(o, id).Cut? && forall h :: h in o.states && o.states[h].installation == id ==> o.states[h].used
  }
}
