// The reference app's OAuth server: authorization codes with proof of possession,
// one live grant per installation, rotating refresh tokens with replay detection.
module ReferenceOAuth {
  import opened Base

  // The code challenge is the hash of its verifier; the hash is injective, so the
  // verifier stands for it.
  datatype Authorization = Authorization(tenant: Id, installation: Id, state: string, challenge: string, redirect: string)

  datatype Code = Code(form: string, request: Authorization, approved: bool, used: bool, expiresAt: int)

  datatype Grant = Grant(tenant: Id, installation: Id, access: string, refresh: string, hook: string, accessExpires: int, expiresAt: int, revoked: bool)

  datatype Tokens = Tokens(access: string, refresh: string, hook: string)

  // `issued` remembers every random string handed out, so that new ones are new.
  datatype Auth = Auth(codes: map<string, Code>, grants: map<Id, Grant>, history: map<string, Id>, issued: set<string>)

  const CODE_TTL := 300
  const ACCESS_TTL := 300
  const GRANT_TTL := 8 * 3600
  const START := Auth(map[], map[], map[], {})

  function Authorize(s: Auth, code: string, form: string, a: Authorization, now: int): Auth {
    s.(codes := s.codes[code := Code(form, a, false, false, now + CODE_TTL)], issued := s.issued + {code})
  }

  // The consent form: allowing approves the code, denying uses it up.
  function Approve(s: Auth, code: string, form: string, allow: bool, now: int): (Auth, Result<Authorization>) {
    if code in s.codes && s.codes[code].form == form && !s.codes[code].approved && !s.codes[code].used && now < s.codes[code].expiresAt
    then (s.(codes := s.codes[code := s.codes[code].(approved := allow, used := !allow)]), Ok(s.codes[code].request))
    else (s, Err(Invalid))
  }

  function RevokeAll(grants: map<Id, Grant>, tenant: Id, ins: Id): map<Id, Grant> {
    map g | g in grants :: if grants[g].tenant == tenant && grants[g].installation == ins then grants[g].(revoked := true) else grants[g]
  }

  // Why a code is good for tokens now.
  predicate Redeemable(s: Auth, code: string, verifier: string, redirect: string, now: int) {
    && code in s.codes && s.codes[code].approved && !s.codes[code].used && now < s.codes[code].expiresAt
    && 43 <= |verifier| <= 128 && verifier == s.codes[code].request.challenge && redirect == s.codes[code].request.redirect
  }

  function ExchangeCode(s: Auth, code: string, verifier: string, redirect: string, id: Id, tokens: Tokens, now: int): (Auth, Result<Tokens>) {
    if !Redeemable(s, code, verifier, redirect, now) then (s, Err(Invalid))
    else
      var a := s.codes[code].request;
      var g := Grant(a.tenant, a.installation, tokens.access, tokens.refresh, tokens.hook, now + ACCESS_TTL, now + GRANT_TTL, false);
      (Auth(s.codes[code := s.codes[code].(used := true)], RevokeAll(s.grants, a.tenant, a.installation)[id := g], s.history, s.issued + {tokens.access, tokens.refresh}), Ok(tokens))
  }

  predicate Holds(s: Auth, id: Id, token: string, now: int) {
    id in s.grants && s.grants[id].refresh == token && !s.grants[id].revoked && now < s.grants[id].expiresAt
  }

  // Rotation. An unknown or spent token is refused; when it was rotated out of a
  // grant, that grant is revoked.
  ghost function Refresh(s: Auth, token: string, access: string, refresh: string, now: int): (Auth, Result<Tokens>) {
    if id :| Holds(s, id, token, now) then
      var g := s.grants[id];
      (s.(grants := s.grants[id := g.(access := access, refresh := refresh, accessExpires := now + ACCESS_TTL)],
          history := s.history[token := id], issued := s.issued + {access, refresh}),
       Ok(Tokens(access, refresh, g.hook)))
    else if token in s.history && s.history[token] in s.grants then
      (s.(grants := s.grants[s.history[token] := s.grants[s.history[token]].(revoked := true)]), Err(Invalid))
    else (s, Err(Invalid))
  }

  // The platform's revocation: every grant and every code of the installation.
  function Revoke(s: Auth, tenant: Id, ins: Id): Auth {
    s.(grants := RevokeAll(s.grants, tenant, ins),
       codes := map c | c in s.codes :: if s.codes[c].request.tenant == tenant && s.codes[c].request.installation == ins then s.codes[c].(used := true) else s.codes[c])
  }

  // Bearer authentication on the app's API.
  predicate Authenticates(s: Auth, token: string, id: Id, now: int) {
    id in s.grants && s.grants[id].access == token && !s.grants[id].revoked && now < s.grants[id].accessExpires && now < s.grants[id].expiresAt
  }

  datatype Step =
    | Asks(code: string, form: string, request: Authorization)
    | Answers(code: string, form: string, allow: bool)
    | Redeems(code: string, verifier: string, redirect: string, id: Id, tokens: Tokens)
    | Rotates(token: string, access: string, refresh: string)
    | Revokes(tenant: Id, installation: Id)

  datatype Turn = Turn(step: Step, now: int)

  // Random strings and grant ids are new.
  predicate Enabled(s: Auth, step: Step) {
    match step
    case Asks(code, _, _) => code !in s.issued && code !in s.codes
    case Redeems(_, _, _, id, tokens) => id !in s.grants && tokens.access !in s.issued && tokens.refresh !in s.issued && tokens.access != tokens.refresh
    case Rotates(_, access, refresh) => access !in s.issued && refresh !in s.issued && access != refresh
    case _ => true
  }

  ghost function Outcome(s: Auth, turn: Turn): Result<Tokens> {
    match turn.step
    case Redeems(code, verifier, redirect, id, tokens) => ExchangeCode(s, code, verifier, redirect, id, tokens, turn.now).1
    case Rotates(token, access, refresh) => Refresh(s, token, access, refresh, turn.now).1
    case _ => Err(Invalid)
  }

  ghost function Next(s: Auth, turn: Turn): Auth {
    if !Enabled(s, turn.step) then s
    else
      match turn.step
      case Asks(code, form, a) => Authorize(s, code, form, a, turn.now)
      case Answers(code, form, allow) => Approve(s, code, form, allow, turn.now).0
      case Redeems(code, verifier, redirect, id, tokens) => ExchangeCode(s, code, verifier, redirect, id, tokens, turn.now).0
      case Rotates(token, access, refresh) => Refresh(s, token, access, refresh, turn.now).0
      case Revokes(tenant, ins) => Revoke(s, tenant, ins)
  }

  ghost function Run(s: Auth, turns: seq<Turn>): Auth {
    if turns == [] then s else Next(Run(s, turns[..|turns| - 1]), turns[|turns| - 1])
  }

  // ------------------------------------------------------------------ invariants

  // One live grant per installation.
  ghost predicate OneLive(grants: map<Id, Grant>) {
    forall g, h :: g in grants && h in grants && !grants[g].revoked && !grants[h].revoked && grants[g].tenant == grants[h].tenant && grants[g].installation == grants[h].installation ==> g == h
  }

  // Every token was issued once, to one grant and one purpose; a rotated one is
  // nobody's current token.
  ghost predicate TokensApart(s: Auth) {
    && (forall g :: g in s.grants ==> s.grants[g].access in s.issued && s.grants[g].refresh in s.issued && s.grants[g].access != s.grants[g].refresh)
    && (forall g, h :: g in s.grants && h in s.grants && g != h ==> s.grants[g].access != s.grants[h].access && s.grants[g].refresh != s.grants[h].refresh)
    && (forall t :: t in s.history ==> t in s.issued && s.history[t] in s.grants)
    && (forall t, g :: t in s.history && g in s.grants ==> s.grants[g].refresh != t)
  }

  ghost predicate Inv(s: Auth) {
    OneLive(s.grants) && TokensApart(s)
  }

  lemma NewGrantIsAlone(grants: map<Id, Grant>, id: Id, g: Grant)
    requires OneLive(grants) && id !in grants
    ensures OneLive(RevokeAll(grants, g.tenant, g.installation)[id := g])
  {
  }

  lemma NewTokensAreApart(s: Auth, id: Id, g: Grant, codes: map<string, Code>)
    requires TokensApart(s) && id !in s.grants && g.access !in s.issued && g.refresh !in s.issued && g.access != g.refresh
    ensures TokensApart(Auth(codes, RevokeAll(s.grants, g.tenant, g.installation)[id := g], s.history, s.issued + {g.access, g.refresh}))
  {
    hide RevokeAll;
    RevokingKeepsTokens(s.grants, g.tenant, g.installation);
  }

  lemma RevokingKeepsTokens(grants: map<Id, Grant>, tenant: Id, ins: Id)
    ensures RevokeAll(grants, tenant, ins).Keys == grants.Keys
    ensures forall g :: g in grants ==> RevokeAll(grants, tenant, ins)[g].access == grants[g].access && RevokeAll(grants, tenant, ins)[g].refresh == grants[g].refresh
  {
  }

  lemma ExchangeKeeps(s: Auth, code: string, verifier: string, redirect: string, id: Id, tokens: Tokens, now: int)
    requires Inv(s) && id !in s.grants && tokens.access !in s.issued && tokens.refresh !in s.issued && tokens.access != tokens.refresh
    ensures Inv(ExchangeCode(s, code, verifier, redirect, id, tokens, now).0)
  {
    hide OneLive, TokensApart, RevokeAll;
    if Redeemable(s, code, verifier, redirect, now) {
      var a := s.codes[code].request;
      var g := Grant(a.tenant, a.installation, tokens.access, tokens.refresh, tokens.hook, now + ACCESS_TTL, now + GRANT_TTL, false);
      NewGrantIsAlone(s.grants, id, g);
      NewTokensAreApart(s, id, g, s.codes[code := s.codes[code].(used := true)]);
    }
  }

  lemma RotationKeeps(s: Auth, id: Id, token: string, access: string, refresh: string, now: int)
    requires Inv(s) && Holds(s, id, token, now) && access !in s.issued && refresh !in s.issued && access != refresh
    ensures Inv(s.(grants := s.grants[id := s.grants[id].(access := access, refresh := refresh, accessExpires := now + ACCESS_TTL)],
                   history := s.history[token := id], issued := s.issued + {access, refresh}))
  {
  }

  lemma RevokingKeeps(s: Auth, id: Id)
    requires Inv(s) && id in s.grants
    ensures Inv(s.(grants := s.grants[id := s.grants[id].(revoked := true)]))
  {
  }

  lemma RefreshKeeps(s: Auth, token: string, access: string, refresh: string, now: int)
    requires Inv(s) && access !in s.issued && refresh !in s.issued && access != refresh
    ensures Inv(Refresh(s, token, access, refresh, now).0)
  {
    hide Inv, Holds;
    forall id | Holds(s, id, token, now)
      ensures id in s.grants && Inv(s.(grants := s.grants[id := s.grants[id].(access := access, refresh := refresh, accessExpires := now + ACCESS_TTL)],
                   history := s.history[token := id], issued := s.issued + {access, refresh}))
    {
      HoldsHasGrant(s, id, token, now);
      RotationKeeps(s, id, token, access, refresh, now);
    }
    if token in s.history && s.history[token] in s.grants {
      RevokingKeeps(s, s.history[token]);
    }
  }

  lemma HoldsHasGrant(s: Auth, id: Id, token: string, now: int)
    requires Holds(s, id, token, now)
    ensures id in s.grants
  {
  }

  lemma RevokeKeeps(s: Auth, tenant: Id, ins: Id)
    requires Inv(s)
    ensures Inv(Revoke(s, tenant, ins))
  {
  }

  lemma SameGrantsKeep(s: Auth, u: Auth)
    requires Inv(s) && u.grants == s.grants && u.history == s.history && s.issued <= u.issued
    ensures Inv(u)
  {
    hide OneLive;
  }

  lemma NextKeeps(s: Auth, turn: Turn)
    requires Inv(s)
    ensures Inv(Next(s, turn))
  {
    hide ExchangeCode, Refresh, Inv, Revoke;
    if Enabled(s, turn.step) {
      match turn.step
      case Redeems(code, verifier, redirect, id, tokens) => ExchangeKeeps(s, code, verifier, redirect, id, tokens, turn.now);
      case Rotates(token, access, refresh) => RefreshKeeps(s, token, access, refresh, turn.now);
      case Asks(code, form, a) => SameGrantsKeep(s, Authorize(s, code, form, a, turn.now));
      case Answers(code, form, allow) => SameGrantsKeep(s, Approve(s, code, form, allow, turn.now).0);
      case Revokes(tenant, ins) => RevokeKeeps(s, tenant, ins);
    }
  }

  // At most one grant per tenant and installation is ever live.
  lemma {:induction false} AtMostOneLiveGrant(turns: seq<Turn>)
    ensures Inv(Run(START, turns))
  {
    hide Next, Inv;
    if turns == [] {
      assert Inv(START) by { StartHolds(); }
    } else {
      AtMostOneLiveGrant(turns[..|turns| - 1]);
      NextKeeps(Run(START, turns[..|turns| - 1]), turns[|turns| - 1]);
    }
  }

  lemma StartHolds()
    ensures Inv(START)
  {
  }

  // ------------------------------------------------------------- what never comes back

  // Used codes stay used, for the same request.
  ghost predicate CodesOnward(a: map<string, Code>, b: map<string, Code>) {
    forall c :: c in a ==> c in b && b[c].request == a[c].request && (a[c].used ==> b[c].used) && b[c].expiresAt == a[c].expiresAt
  }

  // Revoked grants stay revoked; a grant keeps its installation, secret and end.
  ghost predicate GrantsOnward(a: map<Id, Grant>, b: map<Id, Grant>) {
    forall g :: g in a ==>
      && g in b && b[g].tenant == a[g].tenant && b[g].installation == a[g].installation
      && b[g].hook == a[g].hook && b[g].expiresAt == a[g].expiresAt
      && (a[g].revoked ==> b[g].revoked && b[g].access == a[g].access && b[g].refresh == a[g].refresh)
  }

  // A token that is out is current later only where it is current now.
  ghost predicate TokensOnward(issued: set<string>, a: map<Id, Grant>, b: map<Id, Grant>) {
    && (forall t, g :: t in issued && g in b && b[g].access == t ==> g in a && a[g].access == t)
    && (forall t, g :: t in issued && g in b && b[g].refresh == t ==> g in a && a[g].refresh == t)
  }

  ghost predicate Onward(a: Auth, b: Auth) {
    && a.issued <= b.issued && CodesOnward(a.codes, b.codes) && GrantsOnward(a.grants, b.grants) && TokensOnward(a.issued, a.grants, b.grants)
    && (forall t :: t in a.history ==> t in b.history && b.history[t] == a.history[t])
  }

  lemma NewGrantGoesOn(issued: set<string>, grants: map<Id, Grant>, id: Id, g: Grant)
    requires id !in grants && g.access !in issued && g.refresh !in issued
    ensures GrantsOnward(grants, RevokeAll(grants, g.tenant, g.installation)[id := g])
    ensures TokensOnward(issued, grants, RevokeAll(grants, g.tenant, g.installation)[id := g])
  {
  }

  lemma ExchangeGoesOn(s: Auth, code: string, verifier: string, redirect: string, id: Id, tokens: Tokens, now: int)
    requires id !in s.grants && tokens.access !in s.issued && tokens.refresh !in s.issued
    ensures Onward(s, ExchangeCode(s, code, verifier, redirect, id, tokens, now).0)
  {
    hide GrantsOnward, TokensOnward, RevokeAll;
    if Redeemable(s, code, verifier, redirect, now) {
      var a := s.codes[code].request;
      NewGrantGoesOn(s.issued, s.grants, id, Grant(a.tenant, a.installation, tokens.access, tokens.refresh, tokens.hook, now + ACCESS_TTL, now + GRANT_TTL, false));
    } else {
      OnwardSelf(s);
    }
  }

  lemma RotationGoesOn(s: Auth, id: Id, token: string, access: string, refresh: string, now: int)
    requires Inv(s) && Holds(s, id, token, now) && access !in s.issued && refresh !in s.issued
    ensures Onward(s, s.(grants := s.grants[id := s.grants[id].(access := access, refresh := refresh, accessExpires := now + ACCESS_TTL)],
                         history := s.history[token := id], issued := s.issued + {access, refresh}))
  {
    hide OneLive;
  }

  lemma RefreshGoesOn(s: Auth, token: string, access: string, refresh: string, now: int)
    requires Inv(s) && access !in s.issued && refresh !in s.issued
    ensures Onward(s, Refresh(s, token, access, refresh, now).0)
  {
    hide Inv, Holds, Onward;
    forall id | Holds(s, id, token, now)
      ensures id in s.grants && Onward(s, s.(grants := s.grants[id := s.grants[id].(access := access, refresh := refresh, accessExpires := now + ACCESS_TTL)],
                         history := s.history[token := id], issued := s.issued + {access, refresh}))
    {
      HoldsHasGrant(s, id, token, now);
      RotationGoesOn(s, id, token, access, refresh, now);
    }
    OnwardSelf(s);
    if token in s.history && s.history[token] in s.grants {
      RevokingGoesOn(s, s.history[token]);
    }
  }

  lemma RevokingGoesOn(s: Auth, id: Id)
    requires id in s.grants
    ensures Onward(s, s.(grants := s.grants[id := s.grants[id].(revoked := true)]))
  {
  }

  lemma RevokeGoesOn(s: Auth, tenant: Id, ins: Id)
    ensures Onward(s, Revoke(s, tenant, ins))
  {
  }

  lemma OtherStepsGoOn(s: Auth, turn: Turn)
    requires Enabled(s, turn.step) && (turn.step.Asks? || turn.step.Answers?)
    ensures Onward(s, Next(s, turn))
  {
    hide ExchangeCode, Refresh, Revoke;
  }

  lemma NextGoesOn(s: Auth, turn: Turn)
    requires Inv(s)
    ensures Onward(s, Next(s, turn))
  {
    hide ExchangeCode, Refresh, Onward, Approve, Authorize, Revoke, Inv;
    OnwardSelf(s);
    if Enabled(s, turn.step) {
      match turn.step
      case Redeems(code, verifier, redirect, id, tokens) => ExchangeGoesOn(s, code, verifier, redirect, id, tokens, turn.now);
      case Rotates(token, access, refresh) => RefreshGoesOn(s, token, access, refresh, turn.now);
      case Revokes(tenant, ins) => RevokeGoesOn(s, tenant, ins);
      case _ => OtherStepsGoOn(s, turn);
    }
  }

  lemma OnwardSelf(s: Auth)
    ensures Onward(s, s)
  {
  }

  lemma GrantsThrough(a: Auth, b: Auth, c: Auth)
    requires a.issued <= b.issued && GrantsOnward(a.grants, b.grants) && GrantsOnward(b.grants, c.grants)
    requires TokensOnward(a.issued, a.grants, b.grants) && TokensOnward(b.issued, b.grants, c.grants)
    ensures GrantsOnward(a.grants, c.grants) && TokensOnward(a.issued, a.grants, c.grants)
  {
  }

  lemma OnwardThrough(a: Auth, b: Auth, c: Auth)
    requires Onward(a, b) && Onward(b, c)
    ensures Onward(a, c)
  {
    hide GrantsOnward, TokensOnward;
    GrantsThrough(a, b, c);
  }

  lemma {:induction false} RunGoesOn(s: Auth, turns: seq<Turn>)
    requires Inv(s)
    ensures Onward(s, Run(s, turns)) && Inv(Run(s, turns))
  {
    hide Next, Onward, Inv;
    if turns == [] {
      OnwardSelf(s);
    } else {
      var rest, last := turns[..|turns| - 1], turns[|turns| - 1];
      RunGoesOn(s, rest);
      NextKeeps(Run(s, rest), last);
      NextGoesOn(Run(s, rest), last);
      OnwardThrough(s, Run(s, rest), Run(s, turns));
    }
  }

  // --------------------------------------------------------------- main results

  // A code is redeemed at most once: after a success no later turn succeeds with it.
  lemma CodeWorksOnce(turns: seq<Turn>, first: Turn, between: seq<Turn>, again: Turn)
    requires first.step.Redeems? && again.step.Redeems? && first.step.code == again.step.code
    requires var s := Run(START, turns); Enabled(s, first.step) && Outcome(s, first).Ok?
    ensures Outcome(Run(Next(Run(START, turns), first), between), again) == Err(Invalid)
  {
    hide Run, Inv;
    AtMostOneLiveGrant(turns);
    var s := Run(START, turns);
    NextKeeps(s, first);
    RunGoesOn(Next(s, first), between);
    assert Next(s, first).codes[first.step.code].used;
  }

  // A refresh token is accepted at most once. Presenting it again, however much
  // later, is refused and revokes the grant it was rotated out of, for good: none
  // of that grant's tokens is ever accepted again.
  lemma ReplayKillsTheGrant(turns: seq<Turn>, first: Turn, between: seq<Turn>, again: Turn, later: seq<Turn>, any: Turn, bearer: string, at: int)
    requires first.step.Rotates? && again.step.Rotates? && first.step.token == again.step.token && any.step.Rotates?
    requires var s := Run(START, turns); Enabled(s, first.step) && Outcome(s, first).Ok?
    requires Enabled(Run(Next(Run(START, turns), first), between), again.step)
    ensures var s1 := Next(Run(START, turns), first);
            var s2 := Run(s1, between);
            var s4 := Run(Next(s2, again), later);
            && first.step.token in s1.history
            && (var id := s1.history[first.step.token];
                && Outcome(s2, again) == Err(Invalid)
                && id in s4.grants && s4.grants[id].revoked
                && !Authenticates(s4, bearer, id, at)
                && !Holds(s4, id, any.step.token, any.now))
  {
    hide Run;
    AtMostOneLiveGrant(turns);
    var s := Run(START, turns);
    NextKeeps(s, first);
    var s1 := Next(s, first);
    RunGoesOn(s1, between);
    var s2 := Run(s1, between);
    RotatedIsRefused(s2, again);
    NextKeeps(s2, again);
    RunGoesOn(Next(s2, again), later);
  }

  lemma RotatedIsRefused(s: Auth, again: Turn)
    requires Inv(s) && again.step.Rotates? && again.step.token in s.history && Enabled(s, again.step)
    ensures Outcome(s, again) == Err(Invalid)
    ensures var id := s.history[again.step.token]; id in Next(s, again).grants && Next(s, again).grants[id].revoked
  {
    hide OneLive;
  }

  // Revocation ends everything that existed: no code of the installation, no access
  // token and no refresh token issued before it works at any later time.
  lemma RevocationIsFinal(turns: seq<Turn>, tenant: Id, ins: Id, now: int, later: seq<Turn>, code: string, id: Id, any: Turn, bearer: string, at: int)
    requires var s := Run(START, turns);
             && (code in s.codes ==> s.codes[code].request.tenant == tenant && s.codes[code].request.installation == ins)
             && id in s.grants && s.grants[id].tenant == tenant && s.grants[id].installation == ins
    requires any.step.Redeems? && any.step.code == code
    ensures var s := Run(START, turns);
            var u := Run(Next(s, Turn(Revokes(tenant, ins), now)), later);
            && (code in s.codes ==> Outcome(u, any) == Err(Invalid))
            && !Authenticates(u, bearer, id, at) && (forall t, when :: !Holds(u, id, t, when))
  {
    hide Run;
    AtMostOneLiveGrant(turns);
    var s := Run(START, turns);
    var turn := Turn(Revokes(tenant, ins), now);
    NextKeeps(s, turn);
    RunGoesOn(Next(s, turn), later);
  }

  // A success always leaves the new tokens live on exactly one grant, which keeps
  // the webhook secret it was born with.
  lemma SuccessIsUsable(turns: seq<Turn>, turn: Turn)
    requires Enabled(Run(START, turns), turn.step) && Outcome(Run(START, turns), turn).Ok?
    ensures var s := Run(START, turns); var u := Next(s, turn); var tokens := Outcome(s, turn).value;
            && (exists id :: Authenticates(u, tokens.access, id, turn.now) && u.grants[id].refresh == tokens.refresh && u.grants[id].hook == tokens.hook && (turn.step.Rotates? ==> id in s.grants && s.grants[id].hook == tokens.hook))
            && (forall g, h :: Authenticates(u, tokens.access, g, turn.now) && Authenticates(u, tokens.access, h, turn.now) ==> g == h)
  {
    hide Run, Inv, ExchangeCode, Refresh;
    AtMostOneLiveGrant(turns);
    var s := Run(START, turns);
    var u := Next(s, turn);
    NextKeeps(s, turn);
    if turn.step.Redeems? {
      RedeemedIsLive(s, turn, u);
    } else {
      RotatedIsLive(s, turn, u);
    }
  }

  lemma RedeemedIsLive(s: Auth, turn: Turn, u: Auth)
    requires turn.step.Redeems? && Enabled(s, turn.step) && Outcome(s, turn).Ok? && u == Next(s, turn) && Inv(u)
    ensures var tokens := Outcome(s, turn).value;
            && Authenticates(u, tokens.access, turn.step.id, turn.now) && u.grants[turn.step.id].refresh == tokens.refresh && u.grants[turn.step.id].hook == tokens.hook
            && (forall g, h :: Authenticates(u, tokens.access, g, turn.now) && Authenticates(u, tokens.access, h, turn.now) ==> g == h)
  {
    hide OneLive, Redeemable, RevokeAll;
  }

  lemma RotatedIsLive(s: Auth, turn: Turn, u: Auth)
    requires turn.step.Rotates? && Enabled(s, turn.step) && Outcome(s, turn).Ok? && u == Next(s, turn) && Inv(u)
    ensures var tokens := Outcome(s, turn).value;
            && (exists id :: Authenticates(u, tokens.access, id, turn.now) && u.grants[id].refresh == tokens.refresh && u.grants[id].hook == tokens.hook && id in s.grants && s.grants[id].hook == tokens.hook)
            && (forall g, h :: Authenticates(u, tokens.access, g, turn.now) && Authenticates(u, tokens.access, h, turn.now) ==> g == h)
  {
    hide OneLive;
    var id := u.history[turn.step.token];
    assert Authenticates(u, turn.step.access, id, turn.now);
  }

  // ------------------------------------------------------------------ the server

  class Server {
    var codes: map<string, Code>
    var grants: map<Id, Grant>
    var history: map<string, Id>
    ghost var issued: set<string>

    ghost function State(): Auth
      reads this
    {
      Auth(codes, grants, history, issued)
    }

    // What every request finds and leaves behind: one live grant per installation, and
    // no token that belongs to two.
    ghost predicate Valid()
      reads this
    {
      Inv(State())
    }

    constructor ()
      ensures State() == START && Valid()
    {
      codes, grants, history, issued := map[], map[], map[], {};
      new;
      StartHolds();
    }

    method Ask(code: string, form: string, a: Authorization, now: int)
      requires Valid()
      modifies this
      ensures State() == Authorize(old(State()), code, form, a, now) && Valid()
    {
      hide Inv;
      SameGrantsKeep(State(), Authorize(State(), code, form, a, now));
      codes := codes[code := Code(form, a, false, false, now + CODE_TTL)];
      issued := issued + {code};
    }

    method Allow(code: string, form: string, allow: bool, now: int) returns (r: Result<Authorization>)
      requires Valid()
      modifies this`codes
      ensures (State(), r) == Approve(old(State()), code, form, allow, now) && Valid()
    {
      hide Inv;
      SameGrantsKeep(State(), Approve(State(), code, form, allow, now).0);
      if code !in codes || codes[code].form != form || codes[code].approved || codes[code].used || now >= codes[code].expiresAt {
        return Err(Invalid);
      }
      codes := codes[code := codes[code].(approved := allow, used := !allow)];
      r := Ok(codes[code].request);
    }

    method RevokeGrants(tenant: Id, ins: Id)
      modifies this`grants
      ensures grants == RevokeAll(old(grants), tenant, ins)
    {
      grants := map g | g in grants :: if grants[g].tenant == tenant && grants[g].installation == ins then grants[g].(revoked := true) else grants[g];
    }

    method Exchange(code: string, verifier: string, redirect: string, id: Id, tokens: Tokens, now: int) returns (r: Result<Tokens>)
      requires Valid()
      modifies this
      ensures (State(), r) == ExchangeCode(old(State()), code, verifier, redirect, id, tokens, now)
      ensures Enabled(old(State()), Redeems(code, verifier, redirect, id, tokens)) ==> Valid()
    {
      hide Inv;
      if Enabled(State(), Redeems(code, verifier, redirect, id, tokens)) {
        ExchangeKeeps(State(), code, verifier, redirect, id, tokens, now);
      }
      if code !in codes || !codes[code].approved || codes[code].used || now >= codes[code].expiresAt {
        return Err(Invalid);
      }
      var a := codes[code].request;
      if |verifier| < 43 || |verifier| > 128 || verifier != a.challenge || redirect != a.redirect {
        return Err(Invalid);
      }
      codes := codes[code := codes[code].(used := true)];
      RevokeGrants(a.tenant, a.installation);
      grants := grants[id := Grant(a.tenant, a.installation, tokens.access, tokens.refresh, tokens.hook, now + ACCESS_TTL, now + GRANT_TTL, false)];
      issued := issued + {tokens.access, tokens.refresh};
      r := Ok(tokens);
    }

    // SELECT ... WHERE refresh_hash = $1 AND NOT revoked AND expires_at > now()
    method FindGrant(token: string, now: int) returns (id: Option<Id>)
      ensures id.Some? ==> Holds(State(), id.value, token, now)
      ensures id.None? ==> forall g :: !Holds(State(), g, token, now)
    {
      var rest := grants.Keys;
      while rest != {}
        invariant rest <= grants.Keys
        invariant forall g :: Holds(State(), g, token, now) ==> g in rest
        decreases |rest|
      {
        var g :| g in rest;
        if grants[g].refresh == token && !grants[g].revoked && now < grants[g].expiresAt {
          return Some(g);
        }
        rest := rest - {g};
      }
      id := None;
    }

    method Rotate(token: string, access: string, refresh: string, now: int) returns (r: Result<Tokens>)
      requires Valid()
      modifies this
      ensures (State(), r) == Refresh(old(State()), token, access, refresh, now)
      ensures Enabled(old(State()), Rotates(token, access, refresh)) ==> Valid()
    {
      if Enabled(State(), Rotates(token, access, refresh)) {
        RefreshKeeps(State(), token, access, refresh, now);
      }
      var id := FindGrant(token, now);
      if id.None? {
        if token in history && history[token] in grants {
          grants := grants[history[token] := grants[history[token]].(revoked := true)];
        }
        return Err(Invalid);
      }
      var g := grants[id.value];
      history := history[token := id.value];
      grants := grants[id.value := g.(access := access, refresh := refresh, accessExpires := now + ACCESS_TTL)];
      issued := issued + {access, refresh};
      r := Ok(Tokens(access, refresh, g.hook));
    }

    method RevokeInstallation(tenant: Id, ins: Id)
      requires Valid()
      modifies this
      ensures State() == Revoke(old(State()), tenant, ins) && Valid()
    {
      hide Inv;
      RevokeKeeps(State(), tenant, ins);
      RevokeGrants(tenant, ins);
      codes := map c | c in codes :: if codes[c].request.tenant == tenant && codes[c].request.installation == ins then codes[c].(used := true) else codes[c];
    }
  }
}
