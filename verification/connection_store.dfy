// The OAuth tables as their statements change them, and the cleanup worker whose
// revocation commits outside its own transaction.
module ConnectionStore {
  import opened Base
  import opened LifecycleTables
  import opened LifecycleRules
  import opened LifecycleTransactions
  import opened Connections
  import Lifecycle
  import LifecycleSafety
  import InstallationStore

  // UNIQUE(tenant_id, installation_id, session_hash, request_key)
  ghost predicate OnePerRequest(states: map<Id, Handshake>) {
    forall g, h :: g in states && h in states && states[g].installation == states[h].installation && states[g].session == states[h].session && states[g].key == states[h].key ==> g == h
  }

  lemma InsertKeepsOne(states: map<Id, Handshake>, hash: Id, n: Handshake)
    requires OnePerRequest(states) && forall h :: h in states ==> !(states[h].installation == n.installation && states[h].session == n.session && states[h].key == n.key)
    ensures OnePerRequest(states[hash := n])
  {
  }

  lemma OneMatches(states: map<Id, Handshake>, g: Id, h: Id, id: Id, actor: Id, session: string, key: string, now: int)
    requires OnePerRequest(states) && g in states && h in states && Matching(states[g], id, actor, session, key, now) && Matching(states[h], id, actor, session, key, now)
    ensures g == h
  {
  }

  class Repository {
    var links: map<Id, Link>
    var states: map<Id, Handshake>

    function State(): OAuth
      reads this
    {
      OAuth(links, states)
    }

    ghost predicate Valid()
      reads this
    {
      OnePerRequest(states)
    }

    constructor ()
      ensures State() == OAuth(map[], map[]) && Valid()
    {
      links, states := map[], map[];
    }

    method Save(id: Id, link: Link)
      requires Valid()
      modifies this`links
      ensures State() == Connections.Save(old(State()), id, link) && Valid()
    {
      links := links[id := link];
    }

    // Fail closed locally: the link first, then every open handshake.
    method Invalidate(id: Id)
      requires Valid()
      modifies this
      ensures State() == Connections.Invalidate(old(State()), id) && Valid()
    {
      Save(id, Cut);
      states := map h | h in states :: if states[h].installation == id then states[h].(used := true) else states[h];
    }

    // SELECT ... the open handshake of this request
    method FindHandshake(id: Id, actor: Id, session: string, key: string, now: int) returns (found: Option<Id>)
      ensures found.Some? ==> found.value in states && Matching(states[found.value], id, actor, session, key, now)
      ensures found.None? ==> forall h :: h in states ==> !Matching(states[h], id, actor, session, key, now)
    {
      var rest := states.Keys;
      while rest != {}
        invariant rest <= states.Keys
        invariant forall h :: h in states.Keys - rest ==> !Matching(states[h], id, actor, session, key, now)
        decreases |rest|
      {
        var h :| h in rest;
        if Matching(states[h], id, actor, session, key, now) {
          return Some(h);
        }
        rest := rest - {h};
      }
      found := None;
    }

    // INSERT ... ON CONFLICT DO NOTHING, then the open handshake of this request. The
    // table's unique key makes that handshake one.
    method Begin(id: Id, hash: Id, actor: Id, session: string, key: string, expiresAt: int, now: int) returns (r: Result<Id>)
      requires Valid()
      modifies this`states
      ensures (State(), r) == Connections.Begin(old(State()), id, hash, actor, session, key, expiresAt, now) && Valid()
    {
      hide OnePerRequest, Matching;
      var before := states;
      if hash !in states && !exists h :: h in states && states[h].installation == id && states[h].session == session && states[h].key == key {
        InsertKeepsOne(states, hash, Handshake(id, actor, session, key, expiresAt, false));
        states := states[hash := Handshake(id, actor, session, key, expiresAt, false)];
      }
      var found := FindHandshake(id, actor, session, key, now);
      if found.None? {
        states := before;
        return Err(Conflict);
      }
      forall h | h in states && Matching(states[h], id, actor, session, key, now)
        ensures h == found.value
      {
        OneMatches(states, h, found.value, id, actor, session, key, now);
      }
      r := Ok(found.value);
    }

    // Runs inside the gate: an expiring token is refreshed first, and a failed
    // refresh costs the connection.
    method Access(id: Id, expiring: bool, refreshed: bool) returns (fault: Option<Fault>)
      requires Valid()
      modifies this`links
      ensures Valid()
      ensures fault == (if !LinkOf(old(State()), id).Connected? then Some(Conflict) else if expiring && !refreshed then Some(Unavailable) else None)
      ensures State() == (if LinkOf(old(State()), id).Connected? && expiring
                          then Connections.Save(old(State()), id, if refreshed then Connected else NeedsConnection) else old(State()))
    {
      var link := if id in links then links[id] else NeedsConnection;
      if link != Connected {
        return Some(Conflict);
      }
      if expiring {
        if !refreshed {
          Save(id, NeedsConnection);
          return Some(Unavailable);
        }
        Save(id, Connected);
      }
      fault := None;
    }

    method Consume(hash: Id, actor: Id, session: string, now: int) returns (r: Result<Id>)
      requires Valid()
      modifies this`states
      ensures (State(), r) == UseState(old(State()), hash, actor, session, now) && Valid()
    {
      if hash !in states || states[hash].actor != actor || states[hash].session != session || states[hash].used || now >= states[hash].expiresAt {
        return Err(Invalid);
      }
      states := states[hash := states[hash].(used := true)];
      r := Ok(states[hash].installation);
    }
  }

  // One cleanup worker turn. `reach` is how far the revocation got; `committed`
  // says whether the worker's own transaction survived.
  method CleanUp(store: InstallationStore.Repository, oauth: Repository, c: Cleanup, reach: Lifecycle.Reach, committed: bool, now: int) returns (done: bool)
    requires store.Valid(now) && oauth.Valid()
    modifies store, oauth
    ensures store.Valid(now) && oauth.Valid()
    ensures var w := Lifecycle.World(old(store.State()), old(oauth.State()), {}, [], map[]);
            var v := Lifecycle.CleanUpWith(w, c, reach, committed, now);
            store.State() == v.tables && oauth.State() == v.oauth
    ensures done <==> CleanupKey(c) !in old(store.receipts) && Cleanable(old(store.State()), c) && reach.Confirmed? && committed
  {
    hide CompleteCleanup, Connections.Invalidate, Sound;
    done := false;
    if CleanupKey(c) in store.receipts || !Cleanable(store.State(), c) {
      return;
    }
    if reach.Marked? {
      oauth.Save(c.id, Cut);
    } else if reach.Invalidated? {
      oauth.Invalidate(c.id);
    } else if reach.Confirmed? {
      oauth.Invalidate(c.id);
      if committed {
        var _ := store.Complete(c, now);
        done := true;
      }
    }
  }

  // What the world does during one attempt, and when it ends.
  datatype Attempt = Attempt(reach: Lifecycle.Reach, committed: bool, now: int)

  predicate Finished(receipts: map<DirectKey, DirectReceipt>, c: Cleanup) {
    CleanupKey(c) in receipts && receipts[CleanupKey(c)].body == LifecycleTables.CleanUp(c.id)
  }

  predicate Ends(receipts: map<DirectKey, DirectReceipt>, c: Cleanup, a: Attempt) {
    CleanupKey(c) !in receipts && a.reach.Confirmed? && a.committed
  }

  // What becomes of a row that was read as `c`: a finished cleanup is left alone, a
  // confirmed and committed one ends the row, and any other attempt is charged and
  // put off by the backoff of that attempt.
  function Handled(row: Row, receipts: map<DirectKey, DirectReceipt>, c: Cleanup, a: Attempt): Row {
    if Finished(receipts, c) then row
    else if Ends(receipts, c, a) then row.(status := Uninstalled, cleanup := Recovery(0, a.now, c.revision + 1))
    else row.(cleanup := Recovery(c.attempts + 1, a.now + Backoff(c.attempts + 1), c.revision + 1))
  }

  predicate SameAt(a: map<DirectKey, DirectReceipt>, b: map<DirectKey, DirectReceipt>, k: DirectKey) {
    (k in a <==> k in b) && (k in a ==> a[k] == b[k])
  }

  ghost predicate SameExcept(a: map<DirectKey, DirectReceipt>, b: map<DirectKey, DirectReceipt>, at: DirectKey) {
    forall k :: k != at ==> SameAt(a, b, k)
  }

  predicate ReadAs(rows: map<Id, Row>, c: Cleanup) {
    c.app in rows && c == ReadingOf(c.app, rows[c.app]) && rows[c.app].status.Disabling?
  }

  lemma EndedRow(t: Tables, c: Cleanup, a: Attempt)
    requires ReadAs(t.rows, c) && CleanupKey(c) !in t.receipts
    ensures var u := CompleteCleanup(t, c, a.now).0;
            && u.rows == t.rows[c.app := t.rows[c.app].(status := Uninstalled, cleanup := Recovery(0, a.now, c.revision + 1))]
            && CleanupKey(c) in u.receipts && u.receipts == t.receipts[CleanupKey(c) := u.receipts[CleanupKey(c)]]
  {
    hide RevokeTokens, AppBusy, CleanupKey;
  }

  lemma ChargedRow(t: Tables, c: Cleanup, a: Attempt)
    requires UniqueIds(t.rows) && ReadAs(t.rows, c)
    ensures var u := RecordFailure(t, c, a.now);
            && u.rows == t.rows[c.app := t.rows[c.app].(cleanup := Recovery(c.attempts + 1, a.now + Backoff(c.attempts + 1), c.revision + 1))]
            && u.receipts == t.receipts
  {
    hide RevokeTokens, Backoff, UniqueIds;
    HolderIs(t.rows, c.app);
  }

  lemma CleaningStays(w: Lifecycle.World, c: Cleanup, reach: Lifecycle.Reach, committed: bool, now: int)
    ensures var o := Lifecycle.CleanUpWith(w, c, reach, committed, now).oauth;
            && (forall id :: Clean(w.oauth, id) ==> Clean(o, id))
            && (reach.Confirmed? && CleanupKey(c) !in w.tables.receipts && Cleanable(w.tables, c) ==> Clean(o, c.id))
  {
    hide Connections.Invalidate, CompleteCleanup, Cleanable, CleanupKey;
    LifecycleSafety.InvalidateCleans(w.oauth, c.id);
  }

  // CompleteCleanup on a row as it was read: the transaction, or the recorded failure.
  method CleanUpOrCharge(store: InstallationStore.Repository, oauth: Repository, c: Cleanup, a: Attempt)
    requires store.Valid(a.now) && oauth.Valid() && ReadAs(store.rows, c)
    modifies store, oauth
    ensures store.Valid(a.now) && oauth.Valid()
    ensures store.rows == old(store.rows)[c.app := Handled(old(store.rows)[c.app], old(store.receipts), c, a)]
    ensures Ends(old(store.receipts), c, a) ==> Clean(oauth.State(), c.id)
    ensures forall id :: Clean(old(oauth.State()), id) ==> Clean(oauth.State(), id)
    ensures SameExcept(old(store.receipts), store.receipts, CleanupKey(c))
  {
    hide CompleteCleanup, RecordFailure, Sound, Clean, CleanupKey, Backoff, UniqueIds;
    if Finished(store.receipts, c) {
      assert store.rows == store.rows[c.app := store.rows[c.app]];
      return;
    }
    CleaningStays(Lifecycle.World(store.State(), oauth.State(), {}, [], map[]), c, a.reach, a.committed, a.now);
    if CleanupKey(c) !in store.receipts {
      EndedRow(store.State(), c, a);
    }
    var done := CleanUp(store, oauth, c, a.reach, a.committed, a.now);
    if !done {
      store.IdsAreUnique(a.now);
      ChargedRow(store.State(), c, a);
      store.Fail(c, a.now);
    }
  }

  // The first `n` picked rows are handled, all others are as they were read.
  ghost predicate Progress(before: map<Id, Row>, rows: map<Id, Row>, receipts: map<DirectKey, DirectReceipt>, items: seq<Cleanup>, attempts: seq<Attempt>, n: nat)
    requires n <= |items| <= |attempts|
  {
    && rows.Keys == before.Keys && (forall i :: 0 <= i < |items| ==> items[i].app in before)
    && (forall i :: 0 <= i < n ==> rows[items[i].app] == Handled(before[items[i].app], receipts, items[i], attempts[i]))
    && (forall a :: a in before && (forall i :: 0 <= i < n ==> items[i].app != a) ==> rows[a] == before[a])
  }

  // Whoever of the first `n` ended has no access left.
  ghost predicate CutOff(receipts: map<DirectKey, DirectReceipt>, items: seq<Cleanup>, attempts: seq<Attempt>, n: nat, o: OAuth)
    requires n <= |items| <= |attempts|
  {
    forall i :: 0 <= i < n && Ends(receipts, items[i], attempts[i]) ==> Clean(o, items[i].id)
  }

  // How far a worker's round has got.
  ghost predicate Round(before: Tables, items: seq<Cleanup>, attempts: seq<Attempt>, n: nat, t: Tables, o: OAuth)
    requires n <= |items| <= |attempts|
  {
    && Progress(before.rows, t.rows, before.receipts, items, attempts, n) && CutOff(before.receipts, items, attempts, n, o)
    && (forall i :: n <= i < |items| ==> SameAt(before.receipts, t.receipts, CleanupKey(items[i])))
  }

  lemma RoundBegins(t: Tables, items: seq<Cleanup>, attempts: seq<Attempt>, now: int, o: OAuth)
    requires InstallationStore.Picked(t.rows, items, now) && |items| <= |attempts|
    ensures Round(t, items, attempts, 0, t, o)
  {
    hide CleanupKey, Handled, Clean, DueCleanup;
  }

  // A row whose turn has not come is still as it was read.
  lemma NextIsAsRead(before: Tables, items: seq<Cleanup>, attempts: seq<Attempt>, n: nat, t: Tables, o: OAuth, now: int)
    requires InstallationStore.Picked(before.rows, items, now) && n < |items| <= |attempts| && Round(before, items, attempts, n, t, o)
    ensures ReadAs(t.rows, items[n]) && items[n].app in before.rows && t.rows[items[n].app] == before.rows[items[n].app]
  {
    hide Handled, Ends, CleanupKey, Clean, CutOff, SameAt;
    assert forall i :: 0 <= i < n ==> items[i].app != items[n].app;
  }

  lemma ProgressGoesOn(before: map<Id, Row>, rows: map<Id, Row>, u: map<Id, Row>, receipts: map<DirectKey, DirectReceipt>, items: seq<Cleanup>, attempts: seq<Attempt>, n: nat, now: int)
    requires n < |items| <= |attempts| && Progress(before, rows, receipts, items, attempts, n) && InstallationStore.Picked(before, items, now)
    requires items[n].app in before && u == rows[items[n].app := Handled(before[items[n].app], receipts, items[n], attempts[n])]
    ensures Progress(before, u, receipts, items, attempts, n + 1)
  {
    hide Handled, InstallationStore.Picked;
    PickedOnce(before, items, now);
    forall a | a in before && (forall i :: 0 <= i < n + 1 ==> items[i].app != a)
      ensures u[a] == before[a]
    {
      assert items[n].app != a;
    }
  }

  lemma RoundGoesOn(before: Tables, items: seq<Cleanup>, attempts: seq<Attempt>, n: nat, t: Tables, o: OAuth, u: Tables, p: OAuth, now: int)
    requires UniqueIds(before.rows) && InstallationStore.Picked(before.rows, items, now) && n < |items| <= |attempts| && Round(before, items, attempts, n, t, o)
    requires items[n].app in t.rows && u.rows == t.rows[items[n].app := Handled(t.rows[items[n].app], t.receipts, items[n], attempts[n])]
    requires (Ends(t.receipts, items[n], attempts[n]) ==> Clean(p, items[n].id)) && (forall id :: Clean(o, id) ==> Clean(p, id))
    requires SameExcept(t.receipts, u.receipts, CleanupKey(items[n]))
    ensures Round(before, items, attempts, n + 1, u, p)
  {
    hide Handled, Ends, CleanupKey, Clean, UniqueIds, SameAt, SameExcept, InstallationStore.Picked, Progress;
    NextIsAsRead(before, items, attempts, n, t, o, now);
    HandledBySame(before.rows[items[n].app], t.receipts, before.receipts, items[n], attempts[n]);
    ProgressGoesOn(before.rows, t.rows, u.rows, before.receipts, items, attempts, n, now);
    ReceiptsGoOn(before, items, n, t.receipts, u.receipts, now);
  }

  lemma PickedOnce(rows: map<Id, Row>, items: seq<Cleanup>, now: int)
    requires InstallationStore.Picked(rows, items, now)
    ensures forall i, j :: 0 <= i < j < |items| ==> items[i].app != items[j].app
  {
    hide DueCleanup;
  }

  lemma ReceiptsGoOn(before: Tables, items: seq<Cleanup>, n: nat, a: map<DirectKey, DirectReceipt>, b: map<DirectKey, DirectReceipt>, now: int)
    requires UniqueIds(before.rows) && InstallationStore.Picked(before.rows, items, now) && n < |items| && SameExcept(a, b, CleanupKey(items[n]))
    requires forall i :: n <= i < |items| ==> SameAt(before.receipts, a, CleanupKey(items[i]))
    ensures forall i :: n + 1 <= i < |items| ==> SameAt(before.receipts, b, CleanupKey(items[i]))
  {
    hide CleanupKey, InstallationStore.Picked, UniqueIds;
    forall i | n + 1 <= i < |items|
      ensures SameAt(before.receipts, b, CleanupKey(items[i]))
    {
      PickedApart(before.rows, items, now, n, i);
      assert SameAt(a, b, CleanupKey(items[i]));
    }
  }

  lemma HandledBySame(row: Row, a: map<DirectKey, DirectReceipt>, b: map<DirectKey, DirectReceipt>, c: Cleanup, attempt: Attempt)
    requires SameAt(b, a, CleanupKey(c))
    ensures Handled(row, a, c, attempt) == Handled(row, b, c, attempt) && Ends(a, c, attempt) == Ends(b, c, attempt)
  {
    hide CleanupKey;
  }

  lemma KeysApart(a: Cleanup, b: Cleanup)
    requires a.id != b.id
    ensures CleanupKey(a) != CleanupKey(b)
  {
    assert ("cleanup_" + a.id)[8..] == a.id && ("cleanup_" + b.id)[8..] == b.id;
  }

  lemma PickedApart(rows: map<Id, Row>, items: seq<Cleanup>, now: int, i: nat, j: nat)
    requires UniqueIds(rows) && InstallationStore.Picked(rows, items, now) && i < j < |items|
    ensures CleanupKey(items[i]) != CleanupKey(items[j])
  {
    hide DueCleanup, CleanupKey;
    assert items[i].app != items[j].app;
    KeysApart(items[i], items[j]);
  }

  // The cleanup worker's round: one reading of the due rows, then one transaction per
  // row. Every picked row is handled as its own attempt went, whatever happened to the
  // ones before it; no other row changes, and what ended has no access left.
  method CleanUpDue(store: InstallationStore.Repository, oauth: Repository, now: int, attempts: seq<Attempt>) returns (items: seq<Cleanup>)
    requires store.Valid(now) && oauth.Valid()
    requires |attempts| == InstallationStore.BATCH && forall i, j :: 0 <= i <= j < |attempts| ==> now <= attempts[i].now <= attempts[j].now
    modifies store, oauth
    ensures store.Valid(attempts[|attempts| - 1].now) && oauth.Valid()
    ensures |items| <= |attempts| && InstallationStore.Picked(old(store.rows), items, now)
    ensures |items| < InstallationStore.BATCH ==> forall a :: a in old(store.rows) && DueCleanup(old(store.rows)[a], now) ==> a in InstallationStore.Apps(items)
    ensures Round(old(store.State()), items, attempts, |items|, store.State(), oauth.State())
  {
    hide Sound, Clean, CleanupKey, UniqueIds, Handled, DueCleanup, SameAt, SameExcept, Ends, Round, InstallationStore.Picked;
    ghost var before := store.State();
    store.IdsAreUnique(now);
    items := store.PendingCleanup(now);
    RoundBegins(before, items, attempts, now, oauth.State());
    ghost var at := now;
    for n := 0 to |items|
      invariant store.Valid(at) && oauth.Valid() && at <= attempts[|attempts| - 1].now && (forall i :: n <= i < |attempts| ==> at <= attempts[i].now)
      invariant Round(before, items, attempts, n, store.State(), oauth.State())
    {
      store.StaysValid(at, attempts[n].now);
      ghost var t, o := store.State(), oauth.State();
      NextIsAsRead(before, items, attempts, n, t, o, now);
      CleanUpOrCharge(store, oauth, items[n], attempts[n]);
      RoundGoesOn(before, items, attempts, n, t, o, store.State(), oauth.State(), now);
      at := attempts[n].now;
    }
    store.StaysValid(at, attempts[|attempts| - 1].now);
  }
}
