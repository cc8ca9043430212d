// Authorization codes over whole runs: which requests for tokens succeed, told by what
// happened before and by nothing else.
module OAuthCodes {
  import opened Base
  import opened ReferenceOAuth

  ghost function StateAt(turns: seq<Turn>, n: nat): Auth
    requires n <= |turns|
  {
    Run(START, turns[..n])
  }

  lemma OneMore(turns: seq<Turn>, n: nat)
    requires n < |turns|
    ensures StateAt(turns, n + 1) == Next(StateAt(turns, n), turns[n])
  {
    hide Next;
    assert turns[..n + 1][..n] == turns[..n];
  }

  // The code was handed out for this request.
  ghost predicate Begun(turns: seq<Turn>, i: nat, code: string) {
    i < |turns| && turns[i].step.Asks? && turns[i].step.code == code && Enabled(StateAt(turns, i), turns[i].step)
  }

  // The owner answered the form of code `i` within its 300 seconds.
  predicate AnsweredInTime(turns: seq<Turn>, i: nat, k: nat)
    requires i < k < |turns| && turns[i].step.Asks?
  {
    turns[k].step.Answers? && turns[k].step.code == turns[i].step.code && turns[k].step.form == turns[i].step.form && turns[k].now < turns[i].now + 300
  }

  // Tokens were handed out for the code.
  ghost predicate Redeemed(turns: seq<Turn>, k: nat, code: string)
    requires k < |turns|
  {
    turns[k].step.Redeems? && turns[k].step.code == code && Enabled(StateAt(turns, k), turns[k].step) && Outcome(StateAt(turns, k), turns[k]).Ok?
  }

  // The code was redeemed, or its installation revoked.
  ghost predicate Ended(turns: seq<Turn>, i: nat, k: nat)
    requires i < k < |turns| && turns[i].step.Asks?
  {
    Redeemed(turns, k, turns[i].step.code) || turns[k].step == Revokes(turns[i].step.request.tenant, turns[i].step.request.installation)
  }

  ghost predicate NeverEnded(turns: seq<Turn>, i: nat, n: nat)
    requires i < n <= |turns| && turns[i].step.Asks?
  {
    forall k :: i < k < n ==> !Ended(turns, i, k)
  }

  ghost predicate FirstAnswer(turns: seq<Turn>, i: nat, j: nat)
    requires i < j < |turns| && turns[i].step.Asks?
  {
    AnsweredInTime(turns, i, j) && forall k :: i < k < j ==> !AnsweredInTime(turns, i, k)
  }

  // The owner's first answer allowed it.
  ghost predicate Allowed(turns: seq<Turn>, i: nat, n: nat)
    requires i < n <= |turns| && turns[i].step.Asks?
  {
    exists j :: i < j < n && FirstAnswer(turns, i, j) && turns[j].step.allow
  }

  ghost predicate Unanswered(turns: seq<Turn>, i: nat, n: nat)
    requires i < n <= |turns| && turns[i].step.Asks?
  {
    forall k :: i < k < n ==> !AnsweredInTime(turns, i, k)
  }

  // What one turn does to a code that is there.
  lemma TurnOnCode(s: Auth, turn: Turn, code: string, c: Code)
    requires code in s.codes && c == s.codes[code]
    ensures turn.step.Redeems? && turn.step.code == code ==>
              (Outcome(s, turn).Ok? <==> c.approved && !c.used && turn.now < c.expiresAt && 43 <= |turn.step.verifier| <= 128
                                         && turn.step.verifier == c.request.challenge && turn.step.redirect == c.request.redirect)
    ensures code in Next(s, turn).codes
    ensures var answered := turn.step.Answers? && turn.step.code == code && turn.step.form == c.form && turn.now < c.expiresAt;
            var redeemed := turn.step.Redeems? && turn.step.code == code && Enabled(s, turn.step) && Outcome(s, turn).Ok?;
            var revoked := turn.step == Revokes(c.request.tenant, c.request.installation);
            Next(s, turn).codes[code] ==
            if answered && !c.approved && !c.used then c.(approved := turn.step.allow, used := !turn.step.allow)
            else if redeemed || revoked then c.(used := true) else c
  {
    hide RevokeAll, Holds;
  }

  // What the codes table says of a code is what happened to it.
  lemma {:induction false} CodeTellsItsStory(turns: seq<Turn>, n: nat, i: nat, code: string)
    requires n <= |turns| && i < n && Begun(turns, i, code)
    ensures code in StateAt(turns, n).codes
    ensures var c, a := StateAt(turns, n).codes[code], turns[i];
            && c.request == a.step.request && c.form == a.step.form && c.expiresAt == a.now + 300
            && (c.approved && !c.used <==> Allowed(turns, i, n) && NeverEnded(turns, i, n))
            && (!c.approved && !c.used <==> Unanswered(turns, i, n) && NeverEnded(turns, i, n))
    decreases n
  {
    hide Next, Run, Outcome, Enabled;
    OneMore(turns, n - 1);
    if n == i + 1 {
      JustBegun(StateAt(turns, i), turns[i]);
    } else {
      CodeTellsItsStory(turns, n - 1, i, code);
      var s, turn := StateAt(turns, n - 1), turns[n - 1];
      TurnOnCode(s, turn, code, s.codes[code]);
      StoryGoesOn(turns, n - 1, i);
    }
  }

  lemma JustBegun(s: Auth, turn: Turn)
    requires turn.step.Asks? && Enabled(s, turn.step)
    ensures var code := turn.step.code; code in Next(s, turn).codes && Next(s, turn).codes[code] == Code(turn.step.form, turn.step.request, false, false, turn.now + 300)
  {
  }

  // One turn more in the story of code `i`.
  lemma StoryGoesOn(turns: seq<Turn>, n: nat, i: nat)
    requires i < n < |turns| && turns[i].step.Asks?
    ensures NeverEnded(turns, i, n + 1) <==> NeverEnded(turns, i, n) && !Ended(turns, i, n)
    ensures Unanswered(turns, i, n + 1) <==> Unanswered(turns, i, n) && !AnsweredInTime(turns, i, n)
    ensures Allowed(turns, i, n + 1) <==> Allowed(turns, i, n) || (Unanswered(turns, i, n) && AnsweredInTime(turns, i, n) && turns[n].step.allow)
    ensures Allowed(turns, i, n) ==> !Unanswered(turns, i, n)
  {
    hide Ended;
    if Unanswered(turns, i, n) && AnsweredInTime(turns, i, n) && turns[n].step.allow {
      assert FirstAnswer(turns, i, n);
    }
  }

  // Every code in the table was handed out.
  lemma {:induction false} KnownWasBegun(turns: seq<Turn>, n: nat, code: string)
    requires n <= |turns| && code in StateAt(turns, n).codes
    ensures exists i: nat :: i < n && Begun(turns, i, code)
    decreases n
  {
    hide Next, Run;
    if n == 0 {
      NothingYet(turns);
    } else {
      OneMore(turns, n - 1);
      var s, turn := StateAt(turns, n - 1), turns[n - 1];
      if code in s.codes {
        KnownWasBegun(turns, n - 1, code);
      } else {
        NewCodeWasBegun(s, turn, code);
        assert Begun(turns, n - 1, code);
      }
    }
  }

  lemma NothingYet(turns: seq<Turn>)
    ensures StateAt(turns, 0).codes == map[]
  {
  }

  lemma NewCodeWasBegun(s: Auth, turn: Turn, code: string)
    requires code in Next(s, turn).codes && code !in s.codes
    ensures turn.step.Asks? && turn.step.code == code && Enabled(s, turn.step)
  {
    hide RevokeAll, Holds;
  }

  // What makes a request for tokens good: the code of some request is presented with that
  // request's redirect and the verifier its challenge was made of, within 300 seconds; the
  // owner's first answer to its form allowed it, within 300 seconds as well; and since then
  // it was neither redeemed nor its installation revoked.
  ghost predicate Good(turns: seq<Turn>, i: nat, turn: Turn)
    requires turn.step.Redeems?
  {
    && Begun(turns, i, turn.step.code)
    && turn.step.redirect == turns[i].step.request.redirect && turn.step.verifier == turns[i].step.request.challenge && 43 <= |turn.step.verifier| <= 128
    && turn.now < turns[i].now + 300
    && Allowed(turns, i, |turns|) && NeverEnded(turns, i, |turns|)
  }

  // Over any run tokens are handed out for a code exactly in these cases; everything else
  // is refused as Invalid and leaves every table as it was.
  lemma RedeemsExactlyWhen(turns: seq<Turn>, turn: Turn)
    requires turn.step.Redeems?
    ensures Outcome(Run(START, turns), turn).Ok? <==> exists i: nat :: Good(turns, i, turn)
    ensures Outcome(Run(START, turns), turn) == Ok(turn.step.tokens) || (Outcome(Run(START, turns), turn) == Err(Invalid) && Next(Run(START, turns), turn) == Run(START, turns))
  {
    hide Run, Allowed, NeverEnded;
    var code := turn.step.code;
    assert turns[..|turns|] == turns;
    var s := StateAt(turns, |turns|);
    forall i: nat | Begun(turns, i, code)
      ensures Outcome(s, turn).Ok? <==> Good(turns, i, turn)
    {
      CodeTellsItsStory(turns, |turns|, i, code);
      TurnOnCode(s, turn, code, s.codes[code]);
    }
    if code in s.codes {
      KnownWasBegun(turns, |turns|, code);
    }
  }
}
