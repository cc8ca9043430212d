// The merchant's list of installed apps: it always succeeds, and following its cursor
// shows every app once.
module LifecycleLists {
  import opened Base
  import opened Consent
  import opened LifecycleTables
  import opened LifecycleRules
  import opened Lifecycle
  import opened LifecycleSafety
  import opened LifecycleResults

  // One line of the merchant's list, or the refusal when row, release and grant
  // disagree.
  datatype Item = Item(id: Id, app: Id, version: string, status: Status, grant: GrantState)

  // The releases the list knows how to show.
  predicate Shown(r: Release) {
    match r.policy
    case EmbeddedPilot => r.app == PILOT_ID && r.version == "1.0.0" && r.profile.EmbeddedPilotProfile? && r.scopes == [] && r.capabilities == []
    case ReviewedUi => r.profile.ReviewedUiProfile? && r.ui && r.scopes == [] && r.capabilities == []
    case ResourceApp =>
      && r.profile.ResourceAppProfile? && r.resource.Some? && r.resource.value.release != "" && r.resource.value.client != ""
      && ReviewedScopes(r.scopes) && r.resource.value.required == r.scopes && r.resource.value.optional == [] && r.capabilities == []
    case OtherPolicy(_) => false
    case _ => true
  }

  function ListItem(app: Id, row: Row, c: Consumption, g: Grant): Result<Item> {
    if app != c.release.app || row.version != c.release.version || !Shown(c.release) then Err(Forbidden)
    else if InUse(row.status) then
      if row.scopes != c.release.scopes || row.capabilities != Routed(c.release) || g != GrantFor(row.status, c.release) then Err(Forbidden)
      else Ok(Item(row.id, app, row.version, row.status, g.state))
    else if row.status.Disabling? && g == Grant(Revoked, []) then Ok(Item(row.id, app, row.version, row.status, g.state))
    else Err(Forbidden)
  }

  function ItemOf(t: Tables, app: Id): Result<Item> {
    if Listed(t, app) then ListItem(app, t.rows[app], t.consumptions[t.rows[app].id], t.grants[t.rows[app].id]) else Err(NotFound)
  }

  // Rows the list joins with their consumption and grant.
  predicate Listed(t: Tables, app: Id) {
    app in t.rows && !t.rows[app].status.Uninstalled? && t.rows[app].intent != ""
    && t.rows[app].id in t.consumptions && t.consumptions[t.rows[app].id].intent == t.rows[app].intent && t.rows[app].id in t.grants
  }

  lemma ListedExactlyWhenShown(t: Tables, now: int, app: Id)
    requires Kernel(t, now) && app in t.rows && !t.rows[app].status.Uninstalled? && t.rows[app].intent != ""
    ensures Listed(t, app) && (ItemOf(t, app).Ok? <==> Shown(t.consumptions[t.rows[app].id].release))
  {
    hide TokensMatch, IntentsMatch, DecisionsMatch, ConsentsMatch, NoticesMatch, RoutesApart, BindingsApart, UniqueIds, Held, Routed, Shown;
  }

  lemma ConsumedIsShaped(t: Tables, now: int, id: Id)
    requires Kernel(t, now) && id in t.consumptions
    ensures Shaped(t.consumptions[id].release)
  {
    hide Shaped, UniqueIds, RowsMatch, GrantsMatch, TokensMatch, RoutesApart, BindingsApart, IntentsMatch, DecisionsMatch, NoticesMatch;
    assert Agreed(t.consumptions[id], t.intents);
  }

  // Whatever eligibility has admitted under any policy is a release the list can show.
  lemma ShapedIsShown(r: Release)
    requires Shaped(r)
    ensures Shown(r)
  {
    hide Closed, Before;
    if r.policy.ResourceApp? && SignedSourceAdmits(r, r.resource.value) {
      OneScopeIsCanonical(r.scopes, r.resource.value.required);
    }
  }

  lemma OneScopeIsCanonical(scopes: seq<string>, required: seq<string>)
    requires |scopes| == 1 && Canonical(scopes, required)
    ensures required == scopes
  {
    assert |multiset(scopes)| == |multiset(required)|;
    assert required[0] in multiset(required);
  }

  // In every reachable state every consented installation that is not uninstalled is in
  // the list, and none of them makes it fail, under whatever policy it came.
  lemma EveryListSucceeds(w: World, now: int, app: Id)
    requires Reachable(w, now) && app in w.tables.rows && !w.tables.rows[app].status.Uninstalled? && w.tables.rows[app].intent != ""
    ensures Listed(w.tables, app)
    ensures var row := w.tables.rows[app];
            ItemOf(w.tables, app) == Ok(Item(row.id, app, row.version, row.status, match row.status case Pending => Waiting case Active => Granted case _ => Revoked))
  {
    hide Reachable, Kernel, ItemOf, Shaped, Shown;
    ReachableTables(w, now);
    ListedExactlyWhenShown(w.tables, now, app);
    ConsumedIsShaped(w.tables, now, w.tables.rows[app].id);
    ShapedIsShown(w.tables.consumptions[w.tables.rows[app].id].release);
    ShownAsItIs(w.tables, now, app);
  }

  lemma ShownAsItIs(t: Tables, now: int, app: Id)
    requires Kernel(t, now) && Listed(t, app) && ItemOf(t, app).Ok?
    ensures var row := t.rows[app];
            ItemOf(t, app) == Ok(Item(row.id, app, row.version, row.status, match row.status case Pending => Waiting case Active => Granted case _ => Revoked))
  {
    hide TokensMatch, IntentsMatch, DecisionsMatch, ConsentsMatch, NoticesMatch, RoutesApart, BindingsApart, UniqueIds, Held, Routed, Shown;
  }

  // What the list needs of the sources of resource apps: of the releases the lifecycle
  // itself would accept it shows exactly those without optional scopes whose required
  // ones are reviewed and in order.
  lemma ResourceShownExactlyWhen(r: Release)
    requires r.policy.ResourceApp? && ResourceShaped(r)
    ensures Shown(r) <==> r.resource.value.optional == [] && r.resource.value.required == r.scopes && ReviewedScopes(r.scopes)
  {
    hide ReviewedScopes, Canonical;
  }

  // ---------------------------------------------------------------------- the query

  // The joined rows by app, with the installation ids that order them.
  function Joined(t: Tables): map<Id, Id> {
    map a | a in t.rows && Listed(t, a) :: t.rows[a].id
  }

  ghost predicate Apart(ids: map<Id, Id>) {
    forall a, b :: a in ids && b in ids && ids[a] == ids[b] ==> a == b
  }

  lemma JoinedApart(t: Tables)
    requires UniqueIds(t.rows)
    ensures Apart(Joined(t))
  {
    hide Listed;
  }

  // WHERE status != 'uninstalled' AND id > after ORDER BY id LIMIT limit, over the join.
  ghost predicate Page(ids: map<Id, Id>, after: Id, limit: nat, apps: seq<Id>) {
    && |apps| <= limit
    && (forall i :: 0 <= i < |apps| ==> apps[i] in ids && Before(after, ids[apps[i]]))
    && (forall i, j :: 0 <= i < j < |apps| ==> Before(ids[apps[i]], ids[apps[j]]))
    && (forall a, i :: a in ids && Before(after, ids[a]) && a !in apps && 0 <= i < |apps| ==> Before(ids[apps[i]], ids[a]))
    && (|apps| < limit ==> Exhausted(ids, after, apps))
  }

  // No row after `after` is missing.
  ghost predicate Exhausted(ids: map<Id, Id>, after: Id, apps: seq<Id>) {
    forall a :: a in ids && Before(after, ids[a]) ==> a in apps
  }

  predicate AllIn(ids: map<Id, Id>, apps: seq<Id>) {
    forall i :: 0 <= i < |apps| ==> apps[i] in ids
  }

  // The id the next row has to come after.
  function Last(ids: map<Id, Id>, after: Id, apps: seq<Id>): Id
    requires AllIn(ids, apps)
  {
    if apps == [] then after else ids[apps[|apps| - 1]]
  }

  ghost predicate First(ids: map<Id, Id>, after: Id, app: Id) {
    app in ids && Before(after, ids[app]) && forall a :: a in ids && Before(after, ids[a]) && a != app ==> Before(ids[app], ids[a])
  }

  lemma PageGoesOn(ids: map<Id, Id>, after: Id, apps: seq<Id>, next: Id)
    requires AllIn(ids, apps) && Page(ids, after, |apps|, apps) && First(ids, Last(ids, after, apps), next)
    ensures Page(ids, after, |apps| + 1, apps + [next])
  {
    hide Before;
    var more := apps + [next];
    var last := Last(ids, after, apps);
    if apps != [] {
      BeforeGoesOn(after, last, ids[next]);
    }
    forall i | 0 <= i < |apps|
      ensures Before(ids[apps[i]], ids[next])
    {
      if i < |apps| - 1 {
        BeforeGoesOn(ids[apps[i]], last, ids[next]);
      }
    }
    forall a | a in ids && Before(after, ids[a]) && a !in more
      ensures Before(ids[next], ids[a])
    {
      assert apps != [] ==> Before(last, ids[a]);
    }
  }

  lemma PageEnds(ids: map<Id, Id>, after: Id, limit: nat, apps: seq<Id>)
    requires AllIn(ids, apps) && Page(ids, after, |apps|, apps) && |apps| <= limit
    requires forall a :: a in ids ==> !Before(Last(ids, after, apps), ids[a])
    ensures Page(ids, after, limit, apps)
  {
    hide Before;
  }

  method NextListed(ids: map<Id, Id>, after: Id) returns (app: Option<Id>)
    requires Apart(ids)
    ensures app.Some? ==> First(ids, after, app.value)
    ensures app.None? ==> forall a :: a in ids ==> !Before(after, ids[a])
  {
    hide Before;
    app := None;
    var rest := ids.Keys;
    while rest != {}
      invariant rest <= ids.Keys
      invariant app.None? ==> forall a :: a in ids.Keys - rest && a in ids ==> !Before(after, ids[a])
      invariant app.Some? ==>
                  && app.value !in rest && app.value in ids && Before(after, ids[app.value])
                  && forall a :: a in ids.Keys - rest && a in ids && Before(after, ids[a]) && a != app.value ==> Before(ids[app.value], ids[a])
      decreases |rest|
    {
      var a :| a in rest;
      rest := rest - {a};
      if a in ids && Before(after, ids[a]) {
        if app.None? {
          app := Some(a);
        } else {
          var id := ids[app.value];
          BeforeIsTotal(ids[a], id);
          if Before(ids[a], id) {
            forall b | b in ids && Before(id, ids[b])
              ensures Before(ids[a], ids[b])
            {
              BeforeGoesOn(ids[a], id, ids[b]);
            }
            app := Some(a);
          }
        }
      }
    }
  }

  // The items of these apps, in order.
  ghost predicate Shows(t: Tables, apps: seq<Id>, items: seq<Item>) {
    |items| == |apps| && forall i :: 0 <= i < |apps| ==> Ok(items[i]) == ItemOf(t, apps[i])
  }

  lemma NothingShown(t: Tables, ids: map<Id, Id>, after: Id)
    ensures Shows(t, [], []) && Page(ids, after, 0, [])
  {
  }

  lemma ShowsOneMore(t: Tables, apps: seq<Id>, items: seq<Item>, app: Id, item: Item)
    requires Shows(t, apps, items) && Ok(item) == ItemOf(t, app)
    ensures Shows(t, apps + [app], items + [item])
  {
    hide ItemOf;
  }

  lemma FirstIsIn(ids: map<Id, Id>, after: Id, app: Id)
    requires First(ids, after, app)
    ensures app in ids
  {
  }

  lemma ItemFaults(t: Tables, app: Id)
    requires app in Joined(t) && ItemOf(t, app).Err?
    ensures ItemOf(t, app) == Err(Forbidden)
  {
    hide Shown, Routed;
  }

  // The list: the rows of the page in order; one that may not be shown fails it.
  method ListInstalled(t: Tables, after: Id, limit: nat) returns (r: Result<seq<Item>>, ghost apps: seq<Id>)
    requires UniqueIds(t.rows)
    ensures r.Ok? ==> Page(Joined(t), after, limit, apps) && Shows(t, apps, r.value)
    ensures r.Err? ==> r.fault == Forbidden && exists app :: app in Joined(t) && ItemOf(t, app).Err?
  {
    hide Before, ItemOf, Joined, Page, First, UniqueIds, Apart, Shows;
    var ids := Joined(t);
    JoinedApart(t);
    var items: seq<Item>, last := [], after;
    apps := [];
    NothingShown(t, ids, after);
    while |items| < limit
      invariant |items| == |apps| <= limit && AllIn(ids, apps) && Page(ids, after, |apps|, apps) && last == Last(ids, after, apps) && Shows(t, apps, items)
    {
      var next := NextListed(ids, last);
      if next.None? {
        PageEnds(ids, after, limit, apps);
        return Ok(items), apps;
      }
      var item := ItemOf(t, next.value);
      FirstIsIn(ids, last, next.value);
      if item.Err? {
        ItemFaults(t, next.value);
        return Err(Forbidden), apps;
      }
      PageGoesOn(ids, after, apps, next.value);
      ShowsOneMore(t, apps, items, next.value, item.value);
      apps := apps + [next.value];
      items, last := items + [item.value], ids[next.value];
    }
    r := Ok(items);
  }

  // The service: one row more than asked for says whether there is another page, and the
  // cursor of the next one is the last id shown.
  method List(t: Tables, after: Id, asked: int) returns (r: Result<(seq<Item>, Id)>, ghost apps: seq<Id>)
    requires UniqueIds(t.rows)
    ensures r == Err(Invalid) <==> asked < 0 || asked > 20 || (after != "" && !OpaqueId(after))
    ensures r.Ok? ==>
              var ids := Joined(t);
              && AllIn(ids, apps) && Page(ids, after, if asked == 0 then 20 else asked, apps) && Shows(t, apps, r.value.0)
              && (if r.value.1 == "" then Exhausted(ids, after, apps) else apps != [] && r.value.1 == Last(ids, after, apps))
    ensures r.Err? && r != Err(Invalid) ==> r.fault == Forbidden && exists app :: app in Joined(t) && ItemOf(t, app).Err?
  {
    hide Before, ItemOf, Joined, UniqueIds, Page, Exhausted, OpaqueId;
    apps := [];
    if asked < 0 || asked > 20 || (after != "" && !OpaqueId(after)) {
      return Err(Invalid), [];
    }
    var size := if asked == 0 then 20 else asked;
    var found, rows := ListInstalled(t, after, size + 1);
    apps := rows;
    if found.Err? {
      return Err(found.fault), apps;
    }
    PageCut(Joined(t), after, size, apps);
    var items := found.value;
    if |items| > size {
      ItemIsOf(t, apps[size - 1], items[size - 1]);
      apps := apps[..size];
      return Ok((items[..size], items[size - 1].id)), apps;
    }
    r := Ok((items, ""));
  }

  lemma PageCut(ids: map<Id, Id>, after: Id, size: nat, apps: seq<Id>)
    requires Page(ids, after, size + 1, apps)
    ensures AllIn(ids, apps) && forall i :: 0 <= i < |apps| ==> ids[apps[i]] != ""
    ensures |apps| <= size ==> Page(ids, after, size, apps) && Exhausted(ids, after, apps)
    ensures |apps| > size ==> Page(ids, after, size, apps[..size])
  {
    if |apps| > size {
      var cut := apps[..size];
      forall a, i | a in ids && Before(after, ids[a]) && a !in cut && 0 <= i < |cut|
        ensures Before(ids[cut[i]], ids[a])
      {
        if a in apps {
          assert a == apps[size];
        }
      }
    }
  }

  lemma ItemIsOf(t: Tables, app: Id, item: Item)
    requires Ok(item) == ItemOf(t, app) && app in Joined(t)
    ensures item.id == Joined(t)[app]
  {
    hide Shown, Routed;
  }

  // ------------------------------------------------------------------- all the pages

  // What a caller sees that follows the cursor until there is none.
  ghost predicate Walk(ids: map<Id, Id>, after: Id, size: nat, pages: seq<seq<Id>>)
    decreases |pages|
  {
    && pages != [] && AllIn(ids, pages[0]) && Page(ids, after, size, pages[0])
    && (if |pages| == 1 then Exhausted(ids, after, pages[0]) else pages[0] != [] && Walk(ids, Last(ids, after, pages[0]), size, pages[1..]))
  }

  function Flat(pages: seq<seq<Id>>): seq<Id> {
    if pages == [] then [] else pages[0] + Flat(pages[1..])
  }

  lemma PagesJoin(ids: map<Id, Id>, after: Id, apps: seq<Id>, rest: seq<Id>)
    requires AllIn(ids, apps) && apps != [] && Page(ids, after, |apps|, apps) && Page(ids, Last(ids, after, apps), |rest|, rest) && Exhausted(ids, Last(ids, after, apps), rest)
    ensures Page(ids, after, |apps + rest|, apps + rest) && Exhausted(ids, after, apps + rest)
  {
    hide Before;
    var last := Last(ids, after, apps);
    forall i | 0 <= i < |rest|
      ensures Before(after, ids[rest[i]])
    {
      BeforeGoesOn(after, last, ids[rest[i]]);
    }
    forall i, j | 0 <= i < |apps| && 0 <= j < |rest|
      ensures Before(ids[apps[i]], ids[rest[j]])
    {
      if i < |apps| - 1 {
        BeforeGoesOn(ids[apps[i]], last, ids[rest[j]]);
      }
    }
    forall a | a in ids && Before(after, ids[a])
      ensures a in apps + rest
    {
      if a !in apps {
        assert Before(ids[apps[|apps| - 1]], ids[a]);
      }
    }
  }

  lemma WholePage(ids: map<Id, Id>, after: Id, size: nat, apps: seq<Id>)
    requires Page(ids, after, size, apps)
    ensures Page(ids, after, |apps|, apps)
  {
  }

  // Following the cursor shows every installed app after the start, in order of their
  // ids and so each once.
  lemma {:induction false} PagesShowEveryAppOnce(ids: map<Id, Id>, after: Id, size: nat, pages: seq<seq<Id>>)
    requires Walk(ids, after, size, pages)
    ensures Page(ids, after, |Flat(pages)|, Flat(pages)) && Exhausted(ids, after, Flat(pages))
    ensures forall i, j :: 0 <= i < j < |Flat(pages)| ==> Flat(pages)[i] != Flat(pages)[j]
    decreases |pages|
  {
    hide Page, Exhausted;
    WholePage(ids, after, size, pages[0]);
    if |pages| == 1 {
      assert Flat(pages) == pages[0];
    } else {
      PagesShowEveryAppOnce(ids, Last(ids, after, pages[0]), size, pages[1..]);
      PagesJoin(ids, after, pages[0], Flat(pages[1..]));
    }
    PageIsDistinct(ids, after, Flat(pages));
  }

  lemma PageIsDistinct(ids: map<Id, Id>, after: Id, apps: seq<Id>)
    requires Page(ids, after, |apps|, apps)
    ensures forall i, j :: 0 <= i < j < |apps| ==> apps[i] != apps[j]
  {
    hide Before;
    forall i, j | 0 <= i < j < |apps|
      ensures apps[i] != apps[j]
    {
      assert Before(ids[apps[i]], ids[apps[j]]);
      BeforeIsTotal(ids[apps[i]], ids[apps[j]]);
    }
  }
}
