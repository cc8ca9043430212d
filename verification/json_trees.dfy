// JSON values, the tokens that spell them, and the reading of tokens back into a
// value (the grammar of section 2 of RFC 8259, after commas and colons).
module JsonTrees {
  import opened Base

  datatype Json = Plain | Text(text: string) | Object(fields: Fields) | Array(items: Items)
  datatype Fields = NoFields | Field(key: string, value: Json, rest: Fields)
  datatype Items = NoItems | Item(value: Json, rest: Items)

  // `Word` is a number, true, false or null; `Broken` is text the decoder refuses.
  datatype Lexeme = OpenObject | CloseObject | OpenArray | CloseArray | Quoted(text: string) | Word | Broken

  function Tokens(t: Json): (r: seq<Lexeme>)
    ensures |r| >= 1 && !r[0].CloseObject? && !r[0].CloseArray?
  {
    match t
    case Plain => [Word]
    case Text(s) => [Quoted(s)]
    case Object(fields) => [OpenObject] + FieldTokens(fields)
    case Array(items) => [OpenArray] + ItemTokens(items)
  }

  // Members and their closing brace; elements and their closing bracket.
  function FieldTokens(fields: Fields): seq<Lexeme> {
    match fields
    case NoFields => [CloseObject]
    case Field(key, value, rest) => [Quoted(key)] + Tokens(value) + FieldTokens(rest)
  }

  function ItemTokens(items: Items): seq<Lexeme> {
    match items
    case NoItems => [CloseArray]
    case Item(value, rest) => Tokens(value) + ItemTokens(rest)
  }

  function Keys(fields: Fields): set<string> {
    match fields
    case NoFields => {}
    case Field(key, _, rest) => {key} + Keys(rest)
  }

  // No object at any depth repeats a key.
  predicate Unique(t: Json) {
    match t
    case Object(fields) => UniqueFields(fields)
    case Array(items) => UniqueItems(items)
    case _ => true
  }

  predicate UniqueFields(fields: Fields) {
    fields.Field? ==> fields.key !in Keys(fields.rest) && Unique(fields.value) && UniqueFields(fields.rest)
  }

  predicate UniqueItems(items: Items) {
    items.Item? ==> Unique(items.value) && UniqueItems(items.rest)
  }

  // No value lies more than `n` levels down.
  predicate Within(t: Json, n: int) {
    n >= 0 &&
    match t
    case Object(fields) => FieldsWithin(fields, n - 1)
    case Array(items) => ItemsWithin(items, n - 1)
    case _ => true
  }

  predicate FieldsWithin(fields: Fields, n: int) {
    fields.Field? ==> Within(fields.value, n) && FieldsWithin(fields.rest, n)
  }

  predicate ItemsWithin(items: Items, n: int) {
    items.Item? ==> Within(items.value, n) && ItemsWithin(items.rest, n)
  }

  // ------------------------------------------------------------------- reading

  // The value that starts at `p`, and the position just past it.
  function Read(tokens: seq<Lexeme>, p: nat): (r: Option<(Json, nat)>)
    ensures r.Some? ==> p < r.value.1 <= |tokens|
    decreases |tokens| - p, 0
  {
    if p >= |tokens| then None
    else
      match tokens[p]
      case Word => Some((Plain, p + 1))
      case Quoted(s) => Some((Text(s), p + 1))
      case OpenObject =>
        (match ReadFields(tokens, p + 1)
         case None => None
         case Some((fields, q)) => Some((Object(fields), q)))
      case OpenArray =>
        (match ReadItems(tokens, p + 1)
         case None => None
         case Some((items, q)) => Some((Array(items), q)))
      case _ => None
  }

  // The rest of an object, through its closing brace.
  function ReadFields(tokens: seq<Lexeme>, p: nat): (r: Option<(Fields, nat)>)
    ensures r.Some? ==> p < r.value.1 <= |tokens|
    decreases |tokens| - p, 0
  {
    if p >= |tokens| then None
    else if tokens[p].CloseObject? then Some((NoFields, p + 1))
    else if !tokens[p].Quoted? then None
    else
      match Read(tokens, p + 1)
      case None => None
      case Some((value, q)) =>
        match ReadFields(tokens, q)
        case None => None
        case Some((rest, end)) => Some((Field(tokens[p].text, value, rest), end))
  }

  // The rest of an array, through its closing bracket.
  function ReadItems(tokens: seq<Lexeme>, p: nat): (r: Option<(Items, nat)>)
    ensures r.Some? ==> p < r.value.1 <= |tokens|
    decreases |tokens| - p, 1
  {
    if p >= |tokens| then None
    else if tokens[p].CloseArray? then Some((NoItems, p + 1))
    else
      match Read(tokens, p)
      case None => None
      case Some((value, q)) =>
        match ReadItems(tokens, q)
        case None => None
        case Some((rest, end)) => Some((Item(value, rest), end))
  }

  // --------------------------------------------------------------- round trips

  predicate At(tokens: seq<Lexeme>, p: nat, part: seq<Lexeme>) {
    p + |part| <= |tokens| && tokens[p..p + |part|] == part
  }

  lemma AtHead(tokens: seq<Lexeme>, p: nat, part: seq<Lexeme>)
    requires At(tokens, p, part) && part != []
    ensures p < |tokens| && tokens[p] == part[0]
  {
    assert tokens[p] == tokens[p..p + |part|][0];
  }

  lemma AtParts(tokens: seq<Lexeme>, p: nat, a: seq<Lexeme>, b: seq<Lexeme>)
    ensures At(tokens, p, a + b) <==> At(tokens, p, a) && At(tokens, p + |a|, b)
  {
    if At(tokens, p, a + b) {
      assert tokens[p..p + |a|] == tokens[p..p + |a + b|][..|a|] == a;
      assert tokens[p + |a|..p + |a| + |b|] == tokens[p..p + |a + b|][|a|..] == b;
    }
    if At(tokens, p, a) && At(tokens, p + |a|, b) {
      assert tokens[p..p + |a| + |b|] == tokens[p..p + |a|] + tokens[p + |a|..p + |a| + |b|];
    }
  }

  lemma AtOne(tokens: seq<Lexeme>, p: nat)
    requires p < |tokens|
    ensures At(tokens, p, [tokens[p]])
  {
  }

  // Every value is read back from its tokens, whatever follows.
  lemma {:induction false} ReadsBack(t: Json, tokens: seq<Lexeme>, p: nat)
    requires At(tokens, p, Tokens(t))
    ensures Read(tokens, p) == Some((t, p + |Tokens(t)|))
  {
    hide At;
    AtHead(tokens, p, Tokens(t));
    match t
    case Object(fields) =>
      AtParts(tokens, p, [OpenObject], FieldTokens(fields));
      FieldsReadBack(fields, tokens, p + 1);
    case Array(items) =>
      AtParts(tokens, p, [OpenArray], ItemTokens(items));
      ItemsReadBack(items, tokens, p + 1);
    case _ =>
  }

  lemma {:induction false} FieldsReadBack(fields: Fields, tokens: seq<Lexeme>, p: nat)
    requires At(tokens, p, FieldTokens(fields))
    ensures ReadFields(tokens, p) == Some((fields, p + |FieldTokens(fields)|))
  {
    hide At;
    assert FieldTokens(fields) != [];
    AtHead(tokens, p, FieldTokens(fields));
    match fields
    case NoFields =>
    case Field(key, value, rest) =>
      assert FieldTokens(fields) == [Quoted(key)] + (Tokens(value) + FieldTokens(rest));
      AtParts(tokens, p, [Quoted(key)], Tokens(value) + FieldTokens(rest));
      AtParts(tokens, p + 1, Tokens(value), FieldTokens(rest));
      ReadsBack(value, tokens, p + 1);
      FieldsReadBack(rest, tokens, p + 1 + |Tokens(value)|);
  }

  lemma {:induction false} ItemsReadBack(items: Items, tokens: seq<Lexeme>, p: nat)
    requires At(tokens, p, ItemTokens(items))
    ensures ReadItems(tokens, p) == Some((items, p + |ItemTokens(items)|))
  {
    hide At;
    assert ItemTokens(items) != [];
    AtHead(tokens, p, ItemTokens(items));
    match items
    case NoItems =>
    case Item(value, rest) =>
      AtParts(tokens, p, Tokens(value), ItemTokens(rest));
      ReadsBack(value, tokens, p);
      ItemsReadBack(rest, tokens, p + |Tokens(value)|);
  }

  // And what is read is spelled by exactly the tokens consumed.
  lemma {:induction false} ReadIsSpelled(tokens: seq<Lexeme>, p: nat)
    requires Read(tokens, p).Some?
    ensures var (t, q) := Read(tokens, p).value; q == p + |Tokens(t)| && At(tokens, p, Tokens(t))
    decreases |tokens| - p, 0
  {
    hide At;
    AtOne(tokens, p);
    var (t, q) := Read(tokens, p).value;
    match tokens[p]
    case OpenObject =>
      FieldsAreSpelled(tokens, p + 1);
      AtParts(tokens, p, [OpenObject], FieldTokens(t.fields));
    case OpenArray =>
      ItemsAreSpelled(tokens, p + 1);
      AtParts(tokens, p, [OpenArray], ItemTokens(t.items));
    case _ =>
  }

  lemma {:induction false} FieldsAreSpelled(tokens: seq<Lexeme>, p: nat)
    requires ReadFields(tokens, p).Some?
    ensures var (fields, q) := ReadFields(tokens, p).value; q == p + |FieldTokens(fields)| && At(tokens, p, FieldTokens(fields))
    decreases |tokens| - p, 0
  {
    hide At;
    AtOne(tokens, p);
    var (fields, q) := ReadFields(tokens, p).value;
    if fields.Field? {
      var m := Read(tokens, p + 1).value.1;
      ReadIsSpelled(tokens, p + 1);
      FieldsAreSpelled(tokens, m);
      AtParts(tokens, p + 1, Tokens(fields.value), FieldTokens(fields.rest));
      AtParts(tokens, p, [tokens[p]], Tokens(fields.value) + FieldTokens(fields.rest));
      assert FieldTokens(fields) == [tokens[p]] + (Tokens(fields.value) + FieldTokens(fields.rest));
    }
  }

  lemma {:induction false} ItemsAreSpelled(tokens: seq<Lexeme>, p: nat)
    requires ReadItems(tokens, p).Some?
    ensures var (items, q) := ReadItems(tokens, p).value; q == p + |ItemTokens(items)| && At(tokens, p, ItemTokens(items))
    decreases |tokens| - p, 1
  {
    hide At;
    AtOne(tokens, p);
    var (items, q) := ReadItems(tokens, p).value;
    if items.Item? {
      var m := Read(tokens, p).value.1;
      ReadIsSpelled(tokens, p);
      ItemsAreSpelled(tokens, m);
      AtParts(tokens, p, Tokens(items.value), ItemTokens(items.rest));
    }
  }

  // A token text is read to its end exactly when it spells one value.
  lemma SpelledExactlyWhenRead(tokens: seq<Lexeme>, t: Json)
    ensures tokens == Tokens(t) <==> Read(tokens, 0) == Some((t, |tokens|))
  {
    if tokens == Tokens(t) {
      assert tokens[0..0 + |Tokens(t)|] == tokens;
      ReadsBack(t, tokens, 0);
    }
    if Read(tokens, 0) == Some((t, |tokens|)) {
      ReadIsSpelled(tokens, 0);
      assert tokens[0..|tokens|] == tokens;
    }
  }
}
