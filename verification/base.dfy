// Vocabulary shared by every component: identifiers, error results and the
// token pattern that all wire identifiers have to match.
module Base {

  type Id = string

  datatype Option<+T> = None | Some(value: T)

  // The closed set of errors a service can answer with.
  datatype Fault = Invalid | Unauthenticated | Forbidden | NotFound | Conflict | Unavailable

  datatype Result<+T> = Ok(value: T) | Err(fault: Fault)

  predicate TokenChar(c: char) {
    'a' <= c <= 'z' || 'A' <= c <= 'Z' || '0' <= c <= '9' || c == '_' || c == '-'
  }

  // ^[A-Za-z0-9_-]{1,128}$
  predicate Token(s: string) {
    1 <= |s| <= 128 && forall i :: 0 <= i < |s| ==> TokenChar(s[i])
  }

  // ^[A-Za-z0-9][A-Za-z0-9_.:@-]{0,127}$: what the ids of actors, apps and installations may look like.
  predicate OpaqueId(s: string) {
    && 1 <= |s| <= 128 && AlphaNumeric(s[0])
    && forall i :: 0 <= i < |s| ==> TokenChar(s[i]) || s[i] in ".:@"
  }

  predicate AlphaNumeric(c: char) {
    'a' <= c <= 'z' || 'A' <= c <= 'Z' || '0' <= c <= '9'
  }

  function Min(a: int, b: int): int {
    if a < b then a else b
  }

  // Seconds to wait after the given attempt: 1 << min(attempts, 8).
  function Backoff(attempts: nat): nat {
    Pow2(Min(attempts, 8))
  }

  function Pow2(n: nat): nat {
    if n == 0 then 1 else 2 * Pow2(n - 1)
  }

  // Strings in the order of their characters.
  predicate Before(a: string, b: string) {
    b != [] && (a == [] || a[0] < b[0] || (a[0] == b[0] && Before(a[1..], b[1..])))
  }

  lemma {:induction false} BeforeIsTotal(a: string, b: string)
    ensures !Before(a, a)
    ensures Before(a, b) || a == b || Before(b, a)
    ensures !(Before(a, b) && Before(b, a))
    decreases |a| + |b|
  {
    if a != [] {
      BeforeIsTotal(a[1..], if b == [] then [] else b[1..]);
      if b != [] && a[0] == b[0] && a[1..] == b[1..] {
        assert a == [a[0]] + a[1..] == b;
      }
    }
  }

  lemma {:induction false} BeforeGoesOn(a: string, b: string, c: string)
    requires Before(a, b) && Before(b, c)
    ensures Before(a, c)
    decreases |a|
  {
    if a != [] && a[0] == b[0] == c[0] {
      BeforeGoesOn(a[1..], b[1..], c[1..]);
    }
  }

  lemma {:induction false} BeforeInside(prefix: string, a: string, b: string)
    requires Before(a, b)
    ensures Before(prefix + a, prefix + b)
  {
    if prefix == [] {
      assert prefix + a == a && prefix + b == b;
    } else {
      BeforeInside(prefix[1..], a, b);
      assert (prefix + a)[1..] == prefix[1..] + a && (prefix + b)[1..] == prefix[1..] + b;
    }
  }

  // In the order of their characters.
  predicate Sorted(s: seq<string>) {
    forall i :: 0 < i < |s| ==> !Before(s[i], s[i - 1])
  }

  lemma {:induction false} SortedReaches(s: seq<string>, i: nat, j: nat)
    requires Sorted(s) && i <= j < |s|
    ensures !Before(s[j], s[i])
    decreases j - i
  {
    hide Before;
    if i == j {
      BeforeIsTotal(s[i], s[i]);
    } else {
      SortedReaches(s, i, j - 1);
      if Before(s[j], s[i]) {
        BeforeIsTotal(s[i], s[j - 1]);
        if s[i] != s[j - 1] {
          BeforeGoesOn(s[j], s[i], s[j - 1]);
        }
      }
    }
  }

  lemma SameFirst(a: seq<string>, b: seq<string>)
    requires Sorted(a) && Sorted(b) && multiset(a) == multiset(b) && a != [] && b != []
    ensures a[0] == b[0]
  {
    hide Before, Sorted;
    assert a[0] in multiset(b) && b[0] in multiset(a);
    var i :| 0 <= i < |b| && b[i] == a[0];
    var j :| 0 <= j < |a| && a[j] == b[0];
    SortedReaches(b, 0, i);
    SortedReaches(a, 0, j);
    BeforeIsTotal(a[0], b[0]);
  }

  lemma TailSorted(s: seq<string>)
    requires Sorted(s) && s != []
    ensures Sorted(s[1..])
  {
    hide Before;
  }

  // There is one way to sort.
  lemma {:induction false} SortedIsUnique(a: seq<string>, b: seq<string>)
    requires Sorted(a) && Sorted(b) && multiset(a) == multiset(b)
    ensures a == b
  {
    hide Before, Sorted;
    assert |a| == |multiset(a)| == |multiset(b)| == |b|;
    if a != [] {
      SameFirst(a, b);
      TailSorted(a);
      TailSorted(b);
      assert a == [a[0]] + a[1..] && b == [b[0]] + b[1..];
      assert multiset(a[1..]) == multiset(a) - multiset{a[0]} == multiset(b[1..]);
      SortedIsUnique(a[1..], b[1..]);
    }
  }
}
