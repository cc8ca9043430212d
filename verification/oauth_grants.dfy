// Grants over whole runs: which access and refresh tokens are accepted, told by what
// happened before and by nothing else.
module OAuthGrants {
  import opened Base
  import opened ReferenceOAuth
  import opened OAuthCodes

  // The grant was made when a code was redeemed.
  ghost predicate Born(turns: seq<Turn>, i: nat, id: Id) {
    i < |turns| && turns[i].step.Redeems? && turns[i].step.id == id && Redeemed(turns, i, turns[i].step.code)
  }

  // For this installation.
  ghost predicate For(turns: seq<Turn>, i: nat, tenant: Id, ins: Id)
    requires i < |turns| && turns[i].step.Redeems?
  {
    var codes := StateAt(turns, i).codes;
    turns[i].step.code in codes && codes[turns[i].step.code].request.tenant == tenant && codes[turns[i].step.code].request.installation == ins
  }

  // A turn that presented a refresh token of the grant and was given new ones.
  ghost predicate Rotated(turns: seq<Turn>, k: nat, id: Id)
    requires k < |turns|
  {
    && turns[k].step.Rotates? && Enabled(StateAt(turns, k), turns[k].step) && Outcome(StateAt(turns, k), turns[k]).Ok?
    && id in StateAt(turns, k).grants && StateAt(turns, k).grants[id].refresh == turns[k].step.token
  }

  // A refresh token that had been rotated out of the grant came back.
  ghost predicate Replayed(turns: seq<Turn>, k: nat, id: Id)
    requires k < |turns|
  {
    && turns[k].step.Rotates? && Enabled(StateAt(turns, k), turns[k].step) && Outcome(StateAt(turns, k), turns[k]).Err?
    && WasRotatedOut(turns, k, id, turns[k].step.token)
  }

  ghost predicate WasRotatedOut(turns: seq<Turn>, n: nat, id: Id, token: string)
    requires n <= |turns|
  {
    exists m: nat :: m < n && Rotated(turns, m, id) && turns[m].step.token == token
  }

  // What ends a grant: another one for its installation, the installation's revocation,
  // or a replay.
  ghost predicate Killed(turns: seq<Turn>, k: nat, id: Id, tenant: Id, ins: Id)
    requires k < |turns|
  {
    || (turns[k].step.Redeems? && Redeemed(turns, k, turns[k].step.code) && For(turns, k, tenant, ins))
    || turns[k].step == Revokes(tenant, ins)
    || Replayed(turns, k, id)
  }

  ghost predicate Alive(turns: seq<Turn>, i: nat, n: nat, id: Id, tenant: Id, ins: Id)
    requires i < n <= |turns|
  {
    forall k :: i < k < n ==> !Killed(turns, k, id, tenant, ins)
  }

  // The last turn that handed out tokens of the grant.
  ghost predicate LastTokens(turns: seq<Turn>, i: nat, l: nat, n: nat, id: Id)
    requires i <= l < n <= |turns|
  {
    (l == i || Rotated(turns, l, id)) && forall k :: l < k < n ==> !Rotated(turns, k, id)
  }

  function AccessOf(turn: Turn): string {
    match turn.step
    case Redeems(_, _, _, _, tokens) => tokens.access
    case Rotates(_, access, _) => access
    case _ => ""
  }

  function RefreshOf(turn: Turn): string {
    match turn.step
    case Redeems(_, _, _, _, tokens) => tokens.refresh
    case Rotates(_, _, refresh) => refresh
    case _ => ""
  }

  // ------------------------------------------------------------------------ one turn

  ghost predicate Renewed(s: Auth, turn: Turn, id: Id) {
    turn.step.Rotates? && Enabled(s, turn.step) && Outcome(s, turn).Ok? && id in s.grants && s.grants[id].refresh == turn.step.token
  }

  // A refresh token is accepted exactly when a live grant holds it.
  lemma RotationOnGrant(s: Auth, turn: Turn, id: Id, g: Grant)
    requires Inv(s) && turn.step.Rotates? && id in s.grants && g == s.grants[id]
    ensures g.refresh == turn.step.token ==> (Outcome(s, turn).Ok? <==> !g.revoked && turn.now < g.expiresAt)
    ensures Enabled(s, turn.step) ==>
              id in Next(s, turn).grants && Next(s, turn).grants[id] ==
              if Renewed(s, turn, id) then g.(access := turn.step.access, refresh := turn.step.refresh, accessExpires := turn.now + 300)
              else if Outcome(s, turn).Err? && turn.step.token in s.history && s.history[turn.step.token] == id then g.(revoked := true)
              else g
  {
    hide OneLive;
    if g.refresh == turn.step.token && !g.revoked && turn.now < g.expiresAt {
      assert Holds(s, id, turn.step.token, turn.now);
    }
  }

  lemma TurnOnGrant(s: Auth, turn: Turn, id: Id, g: Grant)
    requires Inv(s) && id in s.grants && g == s.grants[id]
    ensures id in Next(s, turn).grants
    ensures var replaced := turn.step.Redeems? && Enabled(s, turn.step) && Outcome(s, turn).Ok? && turn.step.code in s.codes
                            && s.codes[turn.step.code].request.tenant == g.tenant && s.codes[turn.step.code].request.installation == g.installation;
            var replayed := turn.step.Rotates? && Enabled(s, turn.step) && Outcome(s, turn).Err? && turn.step.token in s.history && s.history[turn.step.token] == id;
            var cut := turn.step == Revokes(g.tenant, g.installation);
            Next(s, turn).grants[id] ==
            if Renewed(s, turn, id) then g.(access := turn.step.access, refresh := turn.step.refresh, accessExpires := turn.now + 300)
            else if replaced || replayed || cut then g.(revoked := true) else g
  {
    hide Refresh, Inv;
    if turn.step.Rotates? {
      RotationOnGrant(s, turn, id, g);
    } else if turn.step.Redeems? && Enabled(s, turn.step) {
      ExchangeOnGrant(s, turn, id, g);
    }
  }

  lemma ExchangeOnGrant(s: Auth, turn: Turn, id: Id, g: Grant)
    requires id in s.grants && g == s.grants[id] && turn.step.Redeems? && Enabled(s, turn.step)
    ensures id in Next(s, turn).grants
    ensures Next(s, turn).grants[id] ==
            if Outcome(s, turn).Ok? && turn.step.code in s.codes && s.codes[turn.step.code].request.tenant == g.tenant && s.codes[turn.step.code].request.installation == g.installation
            then g.(revoked := true) else g
  {
  }

  // ------------------------------------------------------------------------ the story

  lemma StateIsSound(turns: seq<Turn>, n: nat)
    requires n <= |turns|
    ensures Inv(StateAt(turns, n))
  {
    hide Inv, Run;
    AtMostOneLiveGrant(turns[..n]);
  }

  lemma JustBorn(s: Auth, turn: Turn)
    requires turn.step.Redeems? && Enabled(s, turn.step) && Outcome(s, turn).Ok?
    ensures turn.step.code in s.codes && turn.step.id in Next(s, turn).grants
    ensures var a, tokens := s.codes[turn.step.code].request, turn.step.tokens;
            Next(s, turn).grants[turn.step.id] == Grant(a.tenant, a.installation, tokens.access, tokens.refresh, tokens.hook, turn.now + 300, turn.now + 28800, false)
  {
    hide RevokeAll;
  }

  // The history files each spent refresh token under its grant.
  lemma HistoryOneMore(s: Auth, turn: Turn, id: Id, token: string)
    requires Inv(s)
    ensures token in Next(s, turn).history && Next(s, turn).history[token] == id <==>
            (token in s.history && s.history[token] == id) || (Renewed(s, turn, id) && turn.step.token == token)
  {
    hide Refresh, Inv, RevokeAll;
    if turn.step.Rotates? && Enabled(s, turn.step) {
      RotationOnHistory(s, turn, id, token);
    }
  }

  lemma RotationOnHistory(s: Auth, turn: Turn, id: Id, token: string)
    requires Inv(s) && turn.step.Rotates? && Enabled(s, turn.step)
    ensures token in Next(s, turn).history && Next(s, turn).history[token] == id <==>
            (token in s.history && s.history[token] == id) || (Renewed(s, turn, id) && turn.step.token == token)
  {
    hide Refresh, OneLive, Holds;
    var holder := RefreshCases(s, turn);
    if holder.Some? {
      HolderHasToken(s, holder.value, turn.step.token, turn.now);
    }
  }

  lemma HolderHasToken(s: Auth, id: Id, token: string, now: int)
    requires Holds(s, id, token, now)
    ensures id in s.grants && s.grants[id].refresh == token
  {
  }

  lemma RefreshCases(s: Auth, turn: Turn) returns (holder: Option<Id>)
    requires turn.step.Rotates? && Enabled(s, turn.step)
    ensures holder.Some? <==> Outcome(s, turn).Ok?
    ensures holder.Some? ==> Holds(s, holder.value, turn.step.token, turn.now) && Next(s, turn).history == s.history[turn.step.token := holder.value]
    ensures holder.None? ==> Next(s, turn).history == s.history
  {
    holder := if Outcome(s, turn).Ok? then Some(Next(s, turn).history[turn.step.token]) else None;
  }

  lemma {:induction false} HistoryTellsRotations(turns: seq<Turn>, n: nat, id: Id, token: string)
    requires n <= |turns|
    ensures token in StateAt(turns, n).history && StateAt(turns, n).history[token] == id <==> WasRotatedOut(turns, n, id, token)
    decreases n
  {
    hide Next, Run, Outcome, Enabled, Inv;
    if n == 0 {
      NothingGranted(turns);
    } else {
      OneMore(turns, n - 1);
      HistoryTellsRotations(turns, n - 1, id, token);
      StateIsSound(turns, n - 1);
      HistoryOneMore(StateAt(turns, n - 1), turns[n - 1], id, token);
      if Rotated(turns, n - 1, id) && turns[n - 1].step.token == token {
        assert WasRotatedOut(turns, n, id, token);
      }
    }
  }

  lemma NothingGranted(turns: seq<Turn>)
    ensures StateAt(turns, 0).history == map[] && StateAt(turns, 0).grants == map[]
  {
  }

  // What the grants table says of a grant is what happened to it: whose it is, how long it
  // lasts, which tokens are its current ones and since when, and whether it still lives.
  lemma {:induction false} GrantTellsItsStory(turns: seq<Turn>, n: nat, i: nat, id: Id) returns (l: nat)
    requires i < n <= |turns| && Born(turns, i, id)
    ensures id in StateAt(turns, n).grants && i <= l < n && LastTokens(turns, i, l, n, id)
    ensures var g := StateAt(turns, n).grants[id];
            && For(turns, i, g.tenant, g.installation) && g.hook == turns[i].step.tokens.hook && g.expiresAt == turns[i].now + 28800
            && g.access == AccessOf(turns[l]) && g.refresh == RefreshOf(turns[l]) && g.accessExpires == turns[l].now + 300
            && (!g.revoked <==> Alive(turns, i, n, id, g.tenant, g.installation))
    decreases n
  {
    hide Next, Run, Outcome, Enabled, Inv;
    OneMore(turns, n - 1);
    if n == i + 1 {
      l := i;
      JustBorn(StateAt(turns, i), turns[i]);
    } else {
      l := GrantTellsItsStory(turns, n - 1, i, id);
      var s, turn := StateAt(turns, n - 1), turns[n - 1];
      StateIsSound(turns, n - 1);
      TurnOnGrant(s, turn, id, s.grants[id]);
      if turn.step.Rotates? {
        HistoryTellsRotations(turns, n - 1, id, turn.step.token);
      }
      if Rotated(turns, n - 1, id) {
        l := n - 1;
      }
      LifeGoesOn(turns, n - 1, i, id, s.grants[id].tenant, s.grants[id].installation);
    }
  }

  lemma LifeGoesOn(turns: seq<Turn>, n: nat, i: nat, id: Id, tenant: Id, ins: Id)
    requires i < n < |turns|
    ensures Alive(turns, i, n + 1, id, tenant, ins) <==> Alive(turns, i, n, id, tenant, ins) && !Killed(turns, n, id, tenant, ins)
  {
    hide Killed;
  }

  // Every grant in the table was made when a code was redeemed.
  lemma {:induction false} KnownWasBorn(turns: seq<Turn>, n: nat, id: Id) returns (i: nat)
    requires n <= |turns| && id in StateAt(turns, n).grants
    ensures i < n && Born(turns, i, id)
    decreases n
  {
    hide Next, Run, Outcome, Enabled;
    if n == 0 {
      i := 0;
      NothingGranted(turns);
    } else {
      OneMore(turns, n - 1);
      if id in StateAt(turns, n - 1).grants {
        i := KnownWasBorn(turns, n - 1, id);
      } else {
        i := n - 1;
        NewGrantWasMade(StateAt(turns, n - 1), turns[n - 1], id);
      }
    }
  }

  lemma NewGrantWasMade(s: Auth, turn: Turn, id: Id)
    requires id in Next(s, turn).grants && id !in s.grants
    ensures turn.step.Redeems? && turn.step.id == id && Enabled(s, turn.step) && Outcome(s, turn).Ok?
  {
  }

  // ------------------------------------------------------------------------ main results

  // The tokens of turn `l` are the current ones of a grant that lives: made at turn `i`
  // for an installation that since then was neither connected anew nor revoked, and of
  // whose spent refresh tokens none came back.
  ghost predicate Current(turns: seq<Turn>, i: nat, l: nat, id: Id) {
    && i <= l < |turns| && Born(turns, i, id) && LastTokens(turns, i, l, |turns|, id)
    && exists tenant, ins :: For(turns, i, tenant, ins) && Alive(turns, i, |turns|, id, tenant, ins)
  }

  lemma CurrentExactlyWhenLive(turns: seq<Turn>, i: nat, l: nat, id: Id)
    requires Born(turns, i, id) && i <= l < |turns| && LastTokens(turns, i, l, |turns|, id)
    ensures id in Run(START, turns).grants
    ensures var g := Run(START, turns).grants[id];
            && g.access == AccessOf(turns[l]) && g.refresh == RefreshOf(turns[l]) && g.accessExpires == turns[l].now + 300 && g.expiresAt == turns[i].now + 28800
            && (!g.revoked <==> Current(turns, i, l, id))
  {
    hide Run, Next, Outcome, Enabled, Killed;
    assert turns[..|turns|] == turns;
    var m := GrantTellsItsStory(turns, |turns|, i, id);
    assert m == l;
    var g := StateAt(turns, |turns|).grants[id];
    forall tenant, ins | For(turns, i, tenant, ins)
      ensures tenant == g.tenant && ins == g.installation
    {
    }
  }

  // An access token is accepted exactly as long as it is the current one of a living
  // grant, for 300 seconds and no longer than eight hours after the grant was made.
  lemma BearerWorksExactlyWhen(turns: seq<Turn>, token: string, id: Id, at: int)
    ensures Authenticates(Run(START, turns), token, id, at) <==>
            exists i: nat, l: nat :: Current(turns, i, l, id) && AccessOf(turns[l]) == token && at < turns[l].now + 300 && at < turns[i].now + 28800
  {
    hide Run, Current, Born, LastTokens, For;
    assert turns[..|turns|] == turns;
    if id in Run(START, turns).grants {
      var i := KnownWasBorn(turns, |turns|, id);
      var l := GrantTellsItsStory(turns, |turns|, i, id);
      CurrentExactlyWhenLive(turns, i, l, id);
    }
    forall i: nat, l: nat | Current(turns, i, l, id)
      ensures Born(turns, i, id) && i <= l < |turns| && LastTokens(turns, i, l, |turns|, id)
      ensures id in Run(START, turns).grants && !Run(START, turns).grants[id].revoked && Run(START, turns).grants[id].access == AccessOf(turns[l])
      ensures Run(START, turns).grants[id].accessExpires == turns[l].now + 300 && Run(START, turns).grants[id].expiresAt == turns[i].now + 28800
    {
      CurrentIsBorn(turns, i, l, id);
      CurrentExactlyWhenLive(turns, i, l, id);
    }
  }

  lemma CurrentIsBorn(turns: seq<Turn>, i: nat, l: nat, id: Id)
    requires Current(turns, i, l, id)
    ensures i <= l < |turns| && Born(turns, i, id) && LastTokens(turns, i, l, |turns|, id)
  {
    hide Born, LastTokens, For, Alive;
  }

  // A refresh token is exchanged exactly as long as it is the current one of a living
  // grant, within eight hours of the grant.
  lemma RefreshWorksExactlyWhen(turns: seq<Turn>, turn: Turn)
    requires turn.step.Rotates?
    ensures Outcome(Run(START, turns), turn).Ok? <==>
            exists i: nat, l: nat, id :: Current(turns, i, l, id) && RefreshOf(turns[l]) == turn.step.token && turn.now < turns[i].now + 28800
  {
    hide Run, Current, Born, LastTokens, For, Inv;
    assert turns[..|turns|] == turns;
    StateIsSound(turns, |turns|);
    var s := Run(START, turns);
    if Outcome(s, turn).Ok? {
      var id := AcceptedIsHeld(s, turn);
      var i := KnownWasBorn(turns, |turns|, id);
      var l := GrantTellsItsStory(turns, |turns|, i, id);
      CurrentExactlyWhenLive(turns, i, l, id);
    }
    forall i: nat, l: nat, id | Current(turns, i, l, id)
      ensures i <= l < |turns| && (RefreshOf(turns[l]) == turn.step.token && turn.now < turns[i].now + 28800 ==> Outcome(s, turn).Ok?)
    {
      CurrentIsBorn(turns, i, l, id);
      CurrentExactlyWhenLive(turns, i, l, id);
      if RefreshOf(turns[l]) == turn.step.token {
        RotationOnGrant(s, turn, id, s.grants[id]);
      }
    }
  }

  lemma AcceptedIsHeld(s: Auth, turn: Turn) returns (id: Id)
    requires turn.step.Rotates? && Outcome(s, turn).Ok?
    ensures id in s.grants && s.grants[id].refresh == turn.step.token && !s.grants[id].revoked && turn.now < s.grants[id].expiresAt
  {
    id :| Holds(s, id, turn.step.token, turn.now);
  }
}
