// The duplicate-key checks over a token decoder: the catalog's, with its depth
// bound, and the UI resource's, without one.
module UniqueJson {
  import opened Base
  import opened JsonTrees

  // Where the decoder is: inside an array, before a key or closing brace, or
  // before the value of a key.
  datatype Frame = Elements | Members | MemberValue

  datatype Answer = Token(lexeme: Lexeme) | EndOfInput | SyntaxError

  // A value may come next.
  predicate TakesValue(stack: seq<Frame>) {
    stack == [] || !stack[|stack| - 1].Members?
  }

  // After a value the decoder expects the next key, element or closing delimiter.
  function AfterValue(stack: seq<Frame>): seq<Frame> {
    if stack != [] && stack[|stack| - 1].MemberValue? then stack[..|stack| - 1] + [Members] else stack
  }

  class Decoder {
    const tokens: seq<Lexeme>
    var pos: nat
    var stack: seq<Frame>

    constructor (tokens: seq<Lexeme>)
      ensures this.tokens == tokens && pos == 0 && stack == []
    {
      this.tokens, pos, stack := tokens, 0, [];
    }

    // Is there another element or member in the current array or object?
    predicate More()
      reads this
    {
      pos < |tokens| && !tokens[pos].CloseObject? && !tokens[pos].CloseArray? && !tokens[pos].Broken?
    }

    // The decoder itself guarantees that delimiters nest and match, and that keys
    // are strings.
    method Next() returns (a: Answer)
      modifies this
      ensures a.EndOfInput? <==> old(pos) >= |tokens|
      ensures !a.Token? ==> pos == old(pos) && stack == old(stack)
      ensures a.Token? ==> old(pos) < |tokens| && a.lexeme == tokens[old(pos)] && pos == old(pos) + 1
      ensures old(pos) < |tokens| ==>
                var top := if old(stack) == [] then None else Some(old(stack)[|old(stack)| - 1]);
                match tokens[old(pos)]
                case OpenObject => if TakesValue(old(stack)) then a.Token? && stack == old(stack) + [Members] else a.SyntaxError?
                case OpenArray => if TakesValue(old(stack)) then a.Token? && stack == old(stack) + [Elements] else a.SyntaxError?
                case CloseObject => if top == Some(Members) then a.Token? && stack == AfterValue(old(stack)[..|old(stack)| - 1]) else a.SyntaxError?
                case CloseArray => if top == Some(Elements) then a.Token? && stack == AfterValue(old(stack)[..|old(stack)| - 1]) else a.SyntaxError?
                case Quoted(_) => a.Token? && stack == (if top == Some(Members) then old(stack)[..|old(stack)| - 1] + [MemberValue] else AfterValue(old(stack)))
                case Word => if TakesValue(old(stack)) then a.Token? && stack == AfterValue(old(stack)) else a.SyntaxError?
                case Broken => a.SyntaxError?
    {
      if pos >= |tokens| {
        return EndOfInput;
      }
      var lexeme := tokens[pos];
      var top := if stack == [] then None else Some(stack[|stack| - 1]);
      match lexeme {
        case OpenObject =>
          if !TakesValue(stack) {
            return SyntaxError;
          }
          stack := stack + [Members];
        case OpenArray =>
          if !TakesValue(stack) {
            return SyntaxError;
          }
          stack := stack + [Elements];
        case CloseObject =>
          if top != Some(Members) {
            return SyntaxError;
          }
          stack := AfterValue(stack[..|stack| - 1]);
        case CloseArray =>
          if top != Some(Elements) {
            return SyntaxError;
          }
          stack := AfterValue(stack[..|stack| - 1]);
        case Quoted(_) =>
          if top == Some(Members) {
            stack := stack[..|stack| - 1] + [MemberValue];
          } else {
            stack := AfterValue(stack);
          }
        case Word =>
          if !TakesValue(stack) {
            return SyntaxError;
          }
          stack := AfterValue(stack);
        case Broken =>
          return SyntaxError;
      }
      pos := pos + 1;
      a := Token(lexeme);
    }
  }

  // The check on one value accepts exactly a readable value without repeated keys
  // (and, with a bound, not too deep), and then stops exactly past it.
  predicate Passes(t: Json, room: Option<int>) {
    Unique(t) && (room.Some? ==> Within(t, room.value))
  }

  ghost predicate Accepts(tokens: seq<Lexeme>, p: nat, room: Option<int>) {
    Read(tokens, p).Some? && Passes(Read(tokens, p).value.0, room)
  }

  function Deeper(room: Option<int>): Option<int> {
    if room.Some? then Some(room.value - 1) else None
  }

  predicate FieldsPass(fields: Fields, room: Option<int>) {
    UniqueFields(fields) && (room.Some? ==> FieldsWithin(fields, room.value))
  }

  predicate ItemsPass(items: Items, room: Option<int>) {
    UniqueItems(items) && (room.Some? ==> ItemsWithin(items, room.value))
  }

  // The members still to come after position `p`, given the keys already seen.
  ghost predicate RestAccepts(tokens: seq<Lexeme>, p: nat, seen: set<string>, room: Option<int>) {
    ReadFields(tokens, p).Some? && FieldsPass(ReadFields(tokens, p).value.0, room) && Keys(ReadFields(tokens, p).value.0) !! seen
  }

  ghost predicate ItemsAccept(tokens: seq<Lexeme>, p: nat, room: Option<int>) {
    ReadItems(tokens, p).Some? && ItemsPass(ReadItems(tokens, p).value.0, room)
  }

  function ValueEnd(tokens: seq<Lexeme>, p: nat): Option<nat> {
    if Read(tokens, p).Some? then Some(Read(tokens, p).value.1) else None
  }

  function FieldsEnd(tokens: seq<Lexeme>, p: nat): Option<nat> {
    if ReadFields(tokens, p).Some? then Some(ReadFields(tokens, p).value.1) else None
  }

  function ItemsEnd(tokens: seq<Lexeme>, p: nat): Option<nat> {
    if ReadItems(tokens, p).Some? then Some(ReadItems(tokens, p).value.1) else None
  }

  predicate Room(room: Option<int>) {
    room.Some? ==> room.value >= 0
  }

  // One token decides how the check goes on.
  lemma ValueStarts(tokens: seq<Lexeme>, p: nat, room: Option<int>)
    ensures Accepts(tokens, p, room) ==> Room(room) && p < |tokens| && ValueEnd(tokens, p).Some?
    ensures p < |tokens| && Room(room) ==>
              match tokens[p]
              case OpenObject => (Accepts(tokens, p, room) <==> RestAccepts(tokens, p + 1, {}, Deeper(room))) && ValueEnd(tokens, p) == FieldsEnd(tokens, p + 1)
              case OpenArray => (Accepts(tokens, p, room) <==> ItemsAccept(tokens, p + 1, Deeper(room))) && ValueEnd(tokens, p) == ItemsEnd(tokens, p + 1)
              case Word => Accepts(tokens, p, room) && ValueEnd(tokens, p) == Some(p + 1)
              case Quoted(_) => Accepts(tokens, p, room) && ValueEnd(tokens, p) == Some(p + 1)
              case _ => !Accepts(tokens, p, room)
  {
  }

  lemma MemberStep(tokens: seq<Lexeme>, p: nat, seen: set<string>, room: Option<int>)
    ensures RestAccepts(tokens, p, seen, room) ==> p < |tokens| && (tokens[p].CloseObject? || tokens[p].Quoted?) && FieldsEnd(tokens, p).Some?
    ensures p < |tokens| && tokens[p].CloseObject? ==> RestAccepts(tokens, p, seen, room) && FieldsEnd(tokens, p) == Some(p + 1)
    ensures p < |tokens| && tokens[p].Quoted? ==>
              var end := ValueEnd(tokens, p + 1);
              && (RestAccepts(tokens, p, seen, room) <==>
                    tokens[p].text !in seen && Accepts(tokens, p + 1, room) && end.Some? && RestAccepts(tokens, end.value, seen + {tokens[p].text}, room))
              && (end.Some? ==> FieldsEnd(tokens, p) == FieldsEnd(tokens, end.value))
  {
  }

  lemma ItemStep(tokens: seq<Lexeme>, p: nat, room: Option<int>)
    ensures ItemsAccept(tokens, p, room) ==> p < |tokens| && ItemsEnd(tokens, p).Some?
    ensures p < |tokens| && tokens[p].CloseArray? ==> ItemsAccept(tokens, p, room) && ItemsEnd(tokens, p) == Some(p + 1)
    ensures p < |tokens| && !tokens[p].CloseArray? ==>
              var end := ValueEnd(tokens, p);
              && (ItemsAccept(tokens, p, room) <==> Accepts(tokens, p, room) && end.Some? && ItemsAccept(tokens, end.value, room))
              && (end.Some? ==> ItemsEnd(tokens, p) == ItemsEnd(tokens, end.value))
  {
  }

  // The catalog's recursive check; `depth` grows by one per level.
  method CatalogValue(d: Decoder, depth: nat) returns (ok: bool)
    requires TakesValue(d.stack) && (d.stack == [] || d.More() || d.stack[|d.stack| - 1].MemberValue?)
    modifies d
    ensures ok <==> Accepts(d.tokens, old(d.pos), Some(8 - depth))
    ensures ok ==> ValueEnd(d.tokens, old(d.pos)) == Some(d.pos) && d.stack == AfterValue(old(d.stack))
    ensures d.pos >= old(d.pos) && (ok ==> d.pos > old(d.pos))
    decreases |d.tokens| - d.pos
  {
    hide Accepts, RestAccepts, ItemsAccept, ValueEnd, FieldsEnd, ItemsEnd;
    ghost var start, outer, room := d.pos, d.stack, Some(8 - depth);
    ValueStarts(d.tokens, start, room);
    if depth > 8 {
      return false;
    }
    var token := d.Next();
    if !token.Token? {
      return false;
    }
    match token.lexeme {
      case OpenObject =>
        var seen: set<string> := {};
        while d.More()
          invariant start + 1 <= d.pos && d.stack == outer + [Members]
          invariant Accepts(d.tokens, start, room) <==> RestAccepts(d.tokens, d.pos, seen, Deeper(room))
          invariant RestAccepts(d.tokens, d.pos, seen, Deeper(room)) ==> ValueEnd(d.tokens, start) == FieldsEnd(d.tokens, d.pos)
          decreases |d.tokens| - d.pos
        {
          MemberStep(d.tokens, d.pos, seen, Deeper(room));
          var name := d.Next();
          if !name.Token? || !name.lexeme.Quoted? || name.lexeme.text in seen {
            return false;
          }
          seen := seen + {name.lexeme.text};
          var inner := CatalogValue(d, depth + 1);
          if !inner {
            return false;
          }
        }
        MemberStep(d.tokens, d.pos, seen, Deeper(room));
        token := d.Next();
        ok := token.Token?;
      case OpenArray =>
        while d.More()
          invariant start + 1 <= d.pos && d.stack == outer + [Elements]
          invariant Accepts(d.tokens, start, room) <==> ItemsAccept(d.tokens, d.pos, Deeper(room))
          invariant ItemsAccept(d.tokens, d.pos, Deeper(room)) ==> ValueEnd(d.tokens, start) == ItemsEnd(d.tokens, d.pos)
          decreases |d.tokens| - d.pos
        {
          ItemStep(d.tokens, d.pos, Deeper(room));
          var inner := CatalogValue(d, depth + 1);
          if !inner {
            return false;
          }
        }
        ItemStep(d.tokens, d.pos, Deeper(room));
        ValueStarts(d.tokens, d.pos, Deeper(room));
        token := d.Next();
        ok := token.Token?;
      case CloseObject => ok := false;
      case CloseArray => ok := false;
      case _ => ok := true;
    }
  }

  // The UI resource's check: no depth, and both closing delimiters are looked at.
  method ResourceValue(d: Decoder) returns (ok: bool)
    requires TakesValue(d.stack) && (d.stack == [] || d.More() || d.stack[|d.stack| - 1].MemberValue?)
    modifies d
    ensures ok <==> Accepts(d.tokens, old(d.pos), None)
    ensures ok ==> ValueEnd(d.tokens, old(d.pos)) == Some(d.pos) && d.stack == AfterValue(old(d.stack))
    ensures d.pos >= old(d.pos) && (ok ==> d.pos > old(d.pos))
    decreases |d.tokens| - d.pos
  {
    hide Accepts, RestAccepts, ItemsAccept, ValueEnd, FieldsEnd, ItemsEnd;
    ghost var start, outer, room: Option<int> := d.pos, d.stack, None;
    ValueStarts(d.tokens, start, room);
    var token := d.Next();
    if !token.Token? {
      return false;
    }
    ok := true;
    match token.lexeme {
      case OpenObject =>
        var seen: set<string> := {};
        while d.More()
          invariant start + 1 <= d.pos && d.stack == outer + [Members]
          invariant Accepts(d.tokens, start, room) <==> RestAccepts(d.tokens, d.pos, seen, room)
          invariant RestAccepts(d.tokens, d.pos, seen, room) ==> ValueEnd(d.tokens, start) == FieldsEnd(d.tokens, d.pos)
          decreases |d.tokens| - d.pos
        {
          MemberStep(d.tokens, d.pos, seen, room);
          var name := d.Next();
          if !name.Token? || !name.lexeme.Quoted? || name.lexeme.text in seen {
            return false;
          }
          seen := seen + {name.lexeme.text};
          var inner := ResourceValue(d);
          if !inner {
            return false;
          }
        }
        MemberStep(d.tokens, d.pos, seen, room);
        token := d.Next();
        if token != Token(CloseObject) {
          return false;
        }
      case OpenArray =>
        while d.More()
          invariant start + 1 <= d.pos && d.stack == outer + [Elements]
          invariant Accepts(d.tokens, start, room) <==> ItemsAccept(d.tokens, d.pos, room)
          invariant ItemsAccept(d.tokens, d.pos, room) ==> ValueEnd(d.tokens, start) == ItemsEnd(d.tokens, d.pos)
          decreases |d.tokens| - d.pos
        {
          ItemStep(d.tokens, d.pos, room);
          var inner := ResourceValue(d);
          if !inner {
            return false;
          }
        }
        ItemStep(d.tokens, d.pos, room);
        ValueStarts(d.tokens, d.pos, room);
        token := d.Next();
        if token != Token(CloseArray) {
          return false;
        }
      case _ =>
    }
  }

  // What acceptance of a whole text means.
  lemma WholeText(tokens: seq<Lexeme>, room: Option<int>)
    ensures (Accepts(tokens, 0, room) && ValueEnd(tokens, 0) == Some(|tokens|)) <==> exists t :: tokens == Tokens(t) && Passes(t, room)
  {
    if Accepts(tokens, 0, room) && ValueEnd(tokens, 0) == Some(|tokens|) {
      SpelledExactlyWhenRead(tokens, Read(tokens, 0).value.0);
      assert tokens == Tokens(Read(tokens, 0).value.0) && Passes(Read(tokens, 0).value.0, room);
    }
    if t :| tokens == Tokens(t) && Passes(t, room) {
      SpelledExactlyWhenRead(tokens, t);
    }
  }

  // The whole catalog text is accepted exactly when it spells one value, no object
  // of which repeats a key, within eight levels, with nothing after it.
  method CatalogUnique(tokens: seq<Lexeme>) returns (ok: bool)
    ensures ok <==> exists t :: tokens == Tokens(t) && Unique(t) && Within(t, 8)
  {
    hide Accepts, ValueEnd;
    var d := new Decoder(tokens);
    ok := CatalogValue(d, 0);
    if ok {
      var rest := d.Next();
      ok := rest.EndOfInput?;
    }
    WholeText(tokens, Some(8));
    EndIsInside(tokens, 0);
  }

  lemma EndIsInside(tokens: seq<Lexeme>, p: nat)
    ensures ValueEnd(tokens, p).Some? ==> ValueEnd(tokens, p).value <= |tokens|
  {
  }

  // The UI resource's text: the same without the depth.
  method ResourceUnique(tokens: seq<Lexeme>) returns (ok: bool)
    ensures ok <==> exists t :: tokens == Tokens(t) && Unique(t)
  {
    hide Accepts, ValueEnd;
    var d := new Decoder(tokens);
    ok := ResourceValue(d);
    if ok {
      var rest := d.Next();
      ok := rest.EndOfInput?;
    }
    WholeText(tokens, None);
    EndIsInside(tokens, 0);
    assert forall t :: Passes(t, None) <==> Unique(t);
  }
}
