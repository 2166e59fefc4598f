/** What the parser promises: the exact token patterns parseInteger and
    parseString accept and the error they raise otherwise, ascending keys
    after isCorrectOrder, the behaviour of the top-level loop, and that it
    recovers every canonical element from the reference encoder's tokens. */
module ParserProperties {
  import opened Java
  import opened Tokens
  import opened Reporting
  import opened Elements
  import opened Parsing
  import opened Bencoding
  import opened Spans

  const IntegerKinds: seq<TokenType> := [IntegerBegin, Integer, EndType]
  const StringKinds: seq<TokenType> := [StringBegin, Separator, String]

  /** The tokens from pos on have the given kinds. */
  predicate Spells(tokens: seq<Token>, pos: nat, kinds: seq<TokenType>)
  {
    pos + |kinds| <= |tokens| && forall k | 0 <= k < |kinds| :: tokens[pos + k].tokenType == kinds[k]
  }

  /** The token at offset k is the first one from pos that breaks the pattern. */
  predicate BreaksAt(tokens: seq<Token>, pos: nat, kinds: seq<TokenType>, k: nat)
  {
    k < |kinds| && pos + k < |tokens| && Spells(tokens, pos, kinds[..k]) && tokens[pos + k].tokenType != kinds[k]
  }

  /** parseInteger accepts exactly INTEGER_BEGIN INTEGER END_TYPE and yields
      the INTEGER token's value; otherwise the first token out of place is
      reported with the one kind expected there. */
  lemma IntegerAtAcceptsExactly(tokens: seq<Token>, pos: nat)
    requires ValidTokens(tokens) && pos < |tokens|
    ensures var r := IntegerAt(tokens, pos);
            (r.result.Ok? <==> Spells(tokens, pos, IntegerKinds)) &&
            (r.result.Ok? ==>
               tokens[pos + 1].value.IntValue? &&
               r.result.value == BInteger(tokens[pos + 1].value.i) && r.pos == pos + 3)
    ensures var r := IntegerAt(tokens, pos);
            r.result.Err? ==>
              exists k: nat :: BreaksAt(tokens, pos, IntegerKinds, k) &&
                          r.result.error == UnexpectedToken(tokens[pos + k], [IntegerKinds[k]])
  {
    var r := IntegerAt(tokens, pos);
    var b := Consumed(tokens, pos, IntegerBegin);
    if b.result.Err? {
      assert BreaksAt(tokens, pos, IntegerKinds, 0);
    } else {
      var n := Consumed(tokens, b.pos, Integer);
      if n.result.Err? {
        assert IntegerKinds[..1] == [IntegerBegin];
        assert BreaksAt(tokens, pos, IntegerKinds, 1);
      } else {
        assert WellTyped(tokens[pos + 1]);
        var e := Consumed(tokens, n.pos, EndType);
        if e.result.Err? {
          assert IntegerKinds[..2] == [IntegerBegin, Integer];
          assert BreaksAt(tokens, pos, IntegerKinds, 2);
        }
      }
    }
  }

  /** parseString accepts exactly STRING_BEGIN SEPARATOR STRING and yields
      the STRING token's text; otherwise the first token out of place is
      reported with the one kind expected there. */
  lemma StringAtAcceptsExactly(tokens: seq<Token>, pos: nat)
    requires ValidTokens(tokens) && pos < |tokens|
    ensures var r := StringAt(tokens, pos);
            (r.result.Ok? <==> Spells(tokens, pos, StringKinds)) &&
            (r.result.Ok? ==>
               tokens[pos + 2].value.StringValue? &&
               r.result.value == BString(tokens[pos + 2].value.s) && r.pos == pos + 3)
    ensures var r := StringAt(tokens, pos);
            r.result.Err? ==>
              exists k: nat :: BreaksAt(tokens, pos, StringKinds, k) &&
                          r.result.error == UnexpectedToken(tokens[pos + k], [StringKinds[k]])
  {
    var r := StringAt(tokens, pos);
    var b := Consumed(tokens, pos, StringBegin);
    if b.result.Err? {
      assert BreaksAt(tokens, pos, StringKinds, 0);
    } else {
      var s := Consumed(tokens, b.pos, Separator);
      if s.result.Err? {
        assert StringKinds[..1] == [StringBegin];
        assert BreaksAt(tokens, pos, StringKinds, 1);
      } else {
        var t := Consumed(tokens, s.pos, String);
        if t.result.Err? {
          assert StringKinds[..2] == [StringBegin, Separator];
          assert BreaksAt(tokens, pos, StringKinds, 2);
        } else {
          assert WellTyped(tokens[pos + 2]);
        }
      }
    }
  }

  /** Inside a list, a token that is neither END_TYPE nor the start of an
      element (EOF included) is an unexpected-token error expecting nothing,
      raised where it stands. */
  lemma ListRejectsStrayToken(tokens: seq<Token>, pos: nat, values: seq<Element>)
    requires ValidTokens(tokens) && pos < |tokens|
    requires tokens[pos].tokenType !in {EndType, Dictionary, List, IntegerBegin, StringBegin}
    ensures ListItems(tokens, pos, values) == Fail(UnexpectedToken(tokens[pos], []), pos)
  {
  }

  /** Keys that are distinct and pass isCorrectOrder are strictly ascending
      under String.compareTo, as canonical Bencode requires. */
  lemma {:induction false} InOrderIsAscending(dict: seq<Entry>)
    requires DistinctKeys(dict) && KeysInOrder(dict)
    ensures forall i, j | 0 <= i < j < |dict| :: CompareTo(dict[i].key, dict[j].key) < 0
  {
    forall i, j | 0 <= i < j < |dict| ensures CompareTo(dict[i].key, dict[j].key) < 0 {
      AscendingFrom(dict, i, j);
    }
  }

  lemma {:induction false} AscendingFrom(dict: seq<Entry>, i: nat, j: nat)
    requires DistinctKeys(dict) && KeysInOrder(dict) && i < j < |dict|
    ensures CompareTo(dict[i].key, dict[j].key) < 0
    decreases j - i
  {
    var a, b := dict[j - 1].key, dict[j].key;
    assert CompareTo(b, a) >= 0;
    CompareToZero(b, a);
    CompareToSwap(b, a);
    if i < j - 1 {
      AscendingFrom(dict, i, j - 1);
      CompareToTransitive(dict[i].key, a, b);
    }
  }

  // --------------------------------------------------------- top level

  /** parse returns an element only when nothing was reported, before or
      during the parse. */
  lemma {:induction false} TopLevelSucceeds(tokens: seq<Token>, pos: nat, element: Option<Element>, log: seq<Message>)
    requires ValidTokens(tokens) && pos < |tokens|
    ensures TopLevel(tokens, pos, element, log).element.Some? ==> TopLevel(tokens, pos, element, log).log == []
    decreases Budget(log), |tokens| - pos
  {
    if tokens[pos].tokenType != EOF {
      var p := ElementAt(tokens, pos);
      match p.result
      case Ok(e) => TopLevelSucceeds(tokens, p.pos, Some(e), log);
      case Err(ex) =>
        if Allows(log) {
          TopLevelSucceeds(tokens, p.pos, element, log + [ParserMessage(ErrorMessage(ex))]);
        }
    }
  }

  lemma {:induction false} TopLevelWithinLimit(tokens: seq<Token>, pos: nat, element: Option<Element>, log: seq<Message>)
    requires ValidTokens(tokens) && pos < |tokens| && |log| < MessageLimit
    ensures var r := TopLevel(tokens, pos, element, log);
            |r.log| <= MessageLimit && (|r.log| == MessageLimit ==> r.element.None?)
    decreases Budget(log), |tokens| - pos
  {
    if tokens[pos].tokenType != EOF {
      var p := ElementAt(tokens, pos);
      match p.result
      case Ok(e) => TopLevelWithinLimit(tokens, p.pos, Some(e), log);
      case Err(ex) =>
        if Allows(log) {
          TopLevelWithinLimit(tokens, p.pos, element, log + [ParserMessage(ErrorMessage(ex))]);
        }
    }
  }

  /** parse's outcome: an element only if no message was ever reported; at
      most the limit of messages, and null at once when the reporter
      refuses one; a list holding only EOF yields null. */
  lemma ParseTokensOutcome(tokens: seq<Token>, log: seq<Message>)
    requires ValidTokens(tokens)
    ensures var r := ParseTokens(tokens, log);
            r.element.Some? ==> log == [] && r.log == []
    ensures var r := ParseTokens(tokens, log);
            |log| < MessageLimit ==> |r.log| <= MessageLimit && (|r.log| == MessageLimit ==> r.element.None?)
    ensures tokens[0].tokenType == EOF ==> ParseTokens(tokens, log).element.None?
  {
    TopLevelSucceeds(tokens, 0, None, log);
    if |log| < MessageLimit {
      TopLevelWithinLimit(tokens, 0, None, log);
    }
  }

  /** A top-level token that cannot start an element is reported again and
      again without the cursor moving, until the reporter refuses: parse
      then returns null with the limit of identical messages. */
  lemma {:induction false} StuckTopLevel(tokens: seq<Token>, element: Option<Element>, log: seq<Message>)
    requires ValidTokens(tokens) && tokens[0].tokenType !in {EOF, Dictionary, List, IntegerBegin, StringBegin}
    requires |log| < MessageLimit
    ensures var r := TopLevel(tokens, 0, element, log);
            r.element.None? && |r.log| == MessageLimit && r.log[..|log|] == log &&
            forall k | |log| <= k < MessageLimit :: r.log[k] == ParserMessage(ErrorMessage(UnexpectedToken(tokens[0], [])))
    decreases MessageLimit - |log|
  {
    var m := ParserMessage(ErrorMessage(UnexpectedToken(tokens[0], [])));
    assert ElementAt(tokens, 0) == Fail(UnexpectedToken(tokens[0], []), 0);
    var next := log + [m];
    if Allows(log) {
      StuckTopLevel(tokens, element, next);
      var r := TopLevel(tokens, 0, element, next);
      assert r.log[..|log|] == r.log[..|next|][..|log|];
    }
  }

  // ------------------------------------------------- what parse builds

  /** The shape of every element the parser returns: each dictionary, at any
      depth, has distinct keys (it is a Map) that never decrease under
      String.compareTo (isCorrectOrder let it through). */
  predicate WellFormed(e: Element)
  {
    match e
    case BInteger(_) => true
    case BString(_) => true
    case BList(items) => forall k | 0 <= k < |items| :: WellFormed(items[k])
    case BDictionary(d) => DistinctKeys(d) && KeysInOrder(d) && WellFormedValues(d)
  }

  predicate WellFormedValues(dict: seq<Entry>)
  {
    forall k | 0 <= k < |dict| :: WellFormed(dict[k].value)
  }

  /** put of a well-formed value keeps every value well formed. */
  lemma {:induction false} PutWellFormed(dict: seq<Entry>, key: string, value: Element)
    requires WellFormedValues(dict) && WellFormed(value)
    ensures WellFormedValues(Put(dict, key, value))
  {
    if dict != [] {
      var tail := dict[1..];
      var r := Put(dict, key, value);
      if dict[0].key == key {
        forall k | 0 <= k < |r| ensures WellFormed(r[k].value) {
          if k > 0 { assert r[k] == dict[k]; }
        }
      } else {
        assert WellFormedValues(tail) by {
          forall k | 0 <= k < |tail| ensures WellFormed(tail[k].value) { assert tail[k] == dict[k + 1]; }
        }
        PutWellFormed(tail, key, value);
        forall k | 0 <= k < |r| ensures WellFormed(r[k].value) {
          if k > 0 { assert r[k] == Put(tail, key, value)[k - 1]; }
        }
      }
    }
  }

  /** Whatever parseElement returns is well formed. */
  lemma {:induction false} ElementWellFormed(tokens: seq<Token>, pos: nat)
    requires ValidTokens(tokens) && pos < |tokens|
    ensures var p := ElementAt(tokens, pos); p.result.Ok? ==> WellFormed(p.result.value)
    decreases |tokens| - pos, 1
  {
    match tokens[pos].tokenType
    case Dictionary => EntriesWellFormed(tokens, pos + 1, tokens[pos], []);
    case List => ItemsWellFormed(tokens, pos + 1, []);
    case _ =>
  }

  lemma {:induction false} ItemsWellFormed(tokens: seq<Token>, pos: nat, values: seq<Element>)
    requires ValidTokens(tokens) && pos < |tokens|
    requires forall k | 0 <= k < |values| :: WellFormed(values[k])
    ensures var p := ListItems(tokens, pos, values); p.result.Ok? ==> WellFormed(p.result.value)
    decreases |tokens| - pos, 2
  {
    if tokens[pos].tokenType != EndType {
      var p := ElementAt(tokens, pos);
      ElementWellFormed(tokens, pos);
      if p.result.Ok? {
        var more := values + [p.result.value];
        forall k | 0 <= k < |more| ensures WellFormed(more[k]) {
          if k < |values| { assert more[k] == values[k]; }
        }
        ItemsWellFormed(tokens, p.pos, more);
      }
    }
  }

  /** The entries read so far keep distinct keys and well-formed values, so
      a dictionary that isCorrectOrder accepts is well formed. */
  lemma {:induction false} EntriesWellFormed(tokens: seq<Token>, pos: nat, start: Token, dict: seq<Entry>)
    requires ValidTokens(tokens) && pos < |tokens|
    requires DistinctKeys(dict) && WellFormedValues(dict)
    ensures var p := DictionaryEntries(tokens, pos, start, dict); p.result.Ok? ==> WellFormed(p.result.value)
    decreases |tokens| - pos, 2
  {
    if tokens[pos].tokenType != EndType {
      var k := StringAt(tokens, pos);
      if k.result.Ok? {
        var v := ElementAt(tokens, k.pos);
        ElementWellFormed(tokens, k.pos);
        if v.result.Ok? {
          PutDistinct(dict, k.result.value.str, v.result.value);
          PutWellFormed(dict, k.result.value.str, v.result.value);
          EntriesWellFormed(tokens, v.pos, start, Put(dict, k.result.value.str, v.result.value));
        }
      }
    }
  }

  lemma {:induction false} TopLevelWellFormed(tokens: seq<Token>, pos: nat, element: Option<Element>, log: seq<Message>)
    requires ValidTokens(tokens) && pos < |tokens|
    requires element.Some? ==> WellFormed(element.value)
    ensures var r := TopLevel(tokens, pos, element, log); r.element.Some? ==> WellFormed(r.element.value)
    decreases Budget(log), |tokens| - pos
  {
    if tokens[pos].tokenType != EOF {
      var p := ElementAt(tokens, pos);
      ElementWellFormed(tokens, pos);
      match p.result
      case Ok(e) => TopLevelWellFormed(tokens, p.pos, Some(e), log);
      case Err(ex) =>
        if Allows(log) {
          TopLevelWellFormed(tokens, p.pos, element, log + [ParserMessage(ErrorMessage(ex))]);
        }
    }
  }

  lemma {:induction false} WellFormedDistinct(e: Element)
    requires WellFormed(e)
    ensures DistinctKeysDeep(e)
  {
    match e
    case BInteger(_) =>
    case BString(_) =>
    case BList(items) =>
      forall k | 0 <= k < |items| ensures DistinctKeysDeep(items[k]) { WellFormedDistinct(items[k]); }
    case BDictionary(d) =>
      forall k | 0 <= k < |d| ensures DistinctKeysDeep(d[k].value) { WellFormedDistinct(d[k].value); }
  }

  /** The element parse returns has, at every depth, distinct keys in
      ascending String.compareTo order, and equals itself under the records'
      equals. */
  lemma ParseTokensWellFormed(tokens: seq<Token>, log: seq<Message>)
    requires ValidTokens(tokens)
    ensures var r := ParseTokens(tokens, log);
            r.element.Some? ==> WellFormed(r.element.value) && DistinctKeysDeep(r.element.value) && Equals(r.element.value, r.element.value)
  {
    TopLevelWellFormed(tokens, 0, None, log);
    var r := ParseTokens(tokens, log);
    if r.element.Some? {
      WellFormedDistinct(r.element.value);
      EqualsReflexive(r.element.value);
    }
  }

  // ---------------------------------------------- recovering encodings

  // Each step lemma below ensures, in the same words, what the next one
  // requires; the position functions name the places in between.

  lemma StringAtEncoded(tokens: seq<Token>, pos: nat, s: string, at: int)
    requires ValidTokens(tokens) && GoodString(s) && At(tokens, pos, StringTokens(s, at))
    ensures pos + 3 < |tokens|
    ensures StringAt(tokens, pos) == Parsed(Ok(BString(s)), pos + 3)
  {
    var enc := StringTokens(s, at);
    AtIndex(tokens, pos, enc, 0);
    AtIndex(tokens, pos, enc, 1);
    AtIndex(tokens, pos, enc, 2);
  }

  lemma IntegerEncoded(tokens: seq<Token>, pos: nat, v: Int32, at: int)
    requires ValidTokens(tokens) && At(tokens, pos, EncodeTokens(BInteger(v), at))
    ensures pos + 3 < |tokens|
    ensures ElementAt(tokens, pos) == Parsed(Ok(BInteger(v)), pos + 3)
  {
    var enc := EncodeTokens(BInteger(v), at);
    AtIndex(tokens, pos, enc, 0);
    AtIndex(tokens, pos, enc, 1);
    AtIndex(tokens, pos, enc, 2);
  }

  /** The parser recovers a canonical element from the tokens the reference
      encoder assigns it, wherever they stand, and stops right after them. */
  lemma {:induction false} ParseEncoded(tokens: seq<Token>, pos: nat, e: Element, at: int)
    requires ValidTokens(tokens) && Canonical(e) && At(tokens, pos, EncodeTokens(e, at))
    ensures pos + |EncodeTokens(e, at)| < |tokens|
    ensures ElementAt(tokens, pos) == Parsed(Ok(e), pos + |EncodeTokens(e, at)|)
    decreases e, 1
  {
    match e
    case BInteger(v) => IntegerEncoded(tokens, pos, v, at);
    case BString(s) => StringAtEncoded(tokens, pos, s, at);
    case BList(items) => ListEncoded(tokens, pos, items, at);
    case BDictionary(d) => DictionaryEncoded(tokens, pos, d, at);
  }

  // ------------------------------------------------------------ lists

  /** Where the END_TYPE of an encoded list stands. */
  function ListEnd(pos: nat, items: seq<Element>, at: int): nat
  {
    pos + 1 + |ItemsTokens(items, at + 1)|
  }

  lemma {:induction false} ListEncoded(tokens: seq<Token>, pos: nat, items: seq<Element>, at: int)
    requires ValidTokens(tokens) && CanonicalItems(items) && At(tokens, pos, EncodeTokens(BList(items), at))
    ensures pos + |EncodeTokens(BList(items), at)| < |tokens|
    ensures ElementAt(tokens, pos) == Parsed(Ok(BList(items)), pos + |EncodeTokens(BList(items), at)|)
    decreases BList(items), 0
  {
    ListParts(tokens, pos, items, at);
    ListOpened(tokens, pos);
    ListClosed(tokens, ListEnd(pos, items, at), items);
    assert [] + items == items;
    ParseItemsEncoded(tokens, pos + 1, items, at + 1, [], ListEnd(pos, items, at), items);
  }

  /** Where the opening token, the items' tokens and END_TYPE of an encoded
      list stand. */
  lemma ListParts(tokens: seq<Token>, pos: nat, items: seq<Element>, at: int)
    requires At(tokens, pos, EncodeTokens(BList(items), at))
    ensures pos < |tokens| && tokens[pos].tokenType == List && At(tokens, pos + 1, ItemsTokens(items, at + 1))
    ensures ListEnd(pos, items, at) < |tokens| && tokens[ListEnd(pos, items, at)].tokenType == EndType
    ensures pos + |EncodeTokens(BList(items), at)| == ListEnd(pos, items, at) + 1
  {
    var open := [Tok(List, at, CharValue('l'))];
    var close := [Tok(EndType, at + 1 + ItemsWidth(items), CharValue('e'))];
    var it := ItemsTokens(items, at + 1);
    ThreeParts(tokens, pos, open, it, close);
    AtIndex(tokens, pos, open, 0);
    AtIndex(tokens, pos + 1 + |it|, close, 0);
  }

  /** parseElement on LIST enters parseList's loop with no items. */
  lemma ListOpened(tokens: seq<Token>, pos: nat)
    requires ValidTokens(tokens) && pos < |tokens| && tokens[pos].tokenType == List
    ensures ElementAt(tokens, pos) == ListItems(tokens, pos + 1, [])
  {
  }

  /** parseList's loop at END_TYPE returns the items and steps past it. */
  lemma ListClosed(tokens: seq<Token>, end: nat, values: seq<Element>)
    requires ValidTokens(tokens) && end < |tokens| && tokens[end].tokenType == EndType
    ensures ListItems(tokens, end, values) == Parsed(Ok(BList(values)), end + 1)
  {
  }

  /** Where the tokens after the first of the items start, and the column
      of their text. */
  function ItemEnd(pos: nat, items: seq<Element>, at: int): nat
    requires items != []
  {
    pos + |EncodeTokens(items[0], at)|
  }

  function ItemsRestAt(items: seq<Element>, at: int): int
    requires items != []
  {
    at + Width(items[0])
  }

  /** parseList's loop runs through the encoder's items, collecting them:
      from `values` before them to `all` after them, at `end`. */
  lemma {:induction false} ParseItemsEncoded(tokens: seq<Token>, pos: nat, items: seq<Element>, at: int, values: seq<Element>,
                                             end: nat, all: seq<Element>)
    requires ValidTokens(tokens) && CanonicalItems(items) && At(tokens, pos, ItemsTokens(items, at))
    requires end == pos + |ItemsTokens(items, at)| && end < |tokens| && all == values + items
    ensures ListItems(tokens, pos, values) == ListItems(tokens, end, all)
    decreases items, 2
  {
    if items == [] {
      assert all == values;
    } else {
      ItemsStep(tokens, pos, items, at, values, end, all);
      ParseItemsEncoded(tokens, ItemEnd(pos, items, at), items[1..], ItemsRestAt(items, at), values + [items[0]], end, all);
    }
  }

  /** One pass of parseList's loop over the first encoded item, and what it
      leaves for the passes after it. */
  lemma ItemsStep(tokens: seq<Token>, pos: nat, items: seq<Element>, at: int, values: seq<Element>, end: nat, all: seq<Element>)
    requires ValidTokens(tokens) && items != [] && CanonicalItems(items) && At(tokens, pos, ItemsTokens(items, at))
    requires end == pos + |ItemsTokens(items, at)| && end < |tokens| && all == values + items
    ensures CanonicalItems(items[1..]) && At(tokens, ItemEnd(pos, items, at), ItemsTokens(items[1..], ItemsRestAt(items, at)))
    ensures end == ItemEnd(pos, items, at) + |ItemsTokens(items[1..], ItemsRestAt(items, at))| && all == values + [items[0]] + items[1..]
    ensures ListItems(tokens, pos, values) == ListItems(tokens, ItemEnd(pos, items, at), values + [items[0]])
    decreases items, 1
  {
    ItemsSplit(tokens, pos, items, at);
    ConsShift(values, items);
    ItemParsed(tokens, pos, items, at, values);
  }

  /** Where the first item's tokens and the remaining items' tokens stand. */
  lemma ItemsSplit(tokens: seq<Token>, pos: nat, items: seq<Element>, at: int)
    requires items != [] && At(tokens, pos, ItemsTokens(items, at))
    ensures At(tokens, pos, EncodeTokens(items[0], at))
    ensures At(tokens, ItemEnd(pos, items, at), ItemsTokens(items[1..], ItemsRestAt(items, at)))
    ensures pos + |ItemsTokens(items, at)| == ItemEnd(pos, items, at) + |ItemsTokens(items[1..], ItemsRestAt(items, at))|
  {
    ItemsTokensCons(items, at);
    SliceParts(tokens, pos, ItemsTokens(items, at), EncodeTokens(items[0], at), ItemsTokens(items[1..], ItemsRestAt(items, at)));
  }

  lemma ItemsTokensCons(items: seq<Element>, at: int)
    requires items != []
    ensures ItemsTokens(items, at) == EncodeTokens(items[0], at) + ItemsTokens(items[1..], ItemsRestAt(items, at))
  {
  }

  /** One pass of parseList's loop over the first of the items, encoded. */
  lemma ItemParsed(tokens: seq<Token>, pos: nat, items: seq<Element>, at: int, values: seq<Element>)
    requires ValidTokens(tokens) && items != [] && Canonical(items[0]) && At(tokens, pos, EncodeTokens(items[0], at))
    ensures ItemEnd(pos, items, at) < |tokens|
    ensures ListItems(tokens, pos, values) == ListItems(tokens, ItemEnd(pos, items, at), values + [items[0]])
    decreases items, 0
  {
    ParseEncoded(tokens, pos, items[0], at);
    ListItemsStep(tokens, pos, values, items[0], ItemEnd(pos, items, at));
  }

  /** One pass of parseList's loop over an element. */
  lemma ListItemsStep(tokens: seq<Token>, pos: nat, values: seq<Element>, v: Element, p: nat)
    requires ValidTokens(tokens) && pos < |tokens| && tokens[pos].tokenType != EndType
    requires ElementAt(tokens, pos) == Parsed(Ok(v), p)
    ensures ListItems(tokens, pos, values) == ListItems(tokens, p, values + [v])
  {
  }

  // ----------------------------------------------------- dictionaries

  /** Where the END_TYPE of an encoded dictionary stands. */
  function DictionaryEnd(pos: nat, d: seq<Entry>, at: int): nat
  {
    pos + 1 + |EntriesTokens(d, at + 1)|
  }

  lemma {:induction false} DictionaryEncoded(tokens: seq<Token>, pos: nat, d: seq<Entry>, at: int)
    requires ValidTokens(tokens) && DistinctKeys(d) && KeysInOrder(d) && CanonicalEntries(d)
    requires At(tokens, pos, EncodeTokens(BDictionary(d), at))
    ensures pos + |EncodeTokens(BDictionary(d), at)| < |tokens|
    ensures ElementAt(tokens, pos) == Parsed(Ok(BDictionary(d)), pos + |EncodeTokens(BDictionary(d), at)|)
    decreases BDictionary(d), 0
  {
    DictionaryParts(tokens, pos, d, at);
    DictionaryOpened(tokens, pos);
    DictionaryClosed(tokens, DictionaryEnd(pos, d, at), tokens[pos], d);
    assert [] + d == d;
    DistinctNewKeys([], d);
    ParseEntriesEncoded(tokens, pos + 1, tokens[pos], [], d, at + 1, DictionaryEnd(pos, d, at), d);
  }

  /** The encoder's tokens of a dictionary whose distinct keys decrease
      somewhere: parseDictionary reads every entry, then isCorrectOrder
      fails and the broken-order error names the opening token, with the
      cursor past the closing END_TYPE. */
  lemma DictionaryEncodedUnordered(tokens: seq<Token>, pos: nat, d: seq<Entry>, at: int)
    requires ValidTokens(tokens) && DistinctKeys(d) && !KeysInOrder(d) && CanonicalEntries(d)
    requires At(tokens, pos, EncodeTokens(BDictionary(d), at))
    ensures pos + |EncodeTokens(BDictionary(d), at)| < |tokens|
    ensures ElementAt(tokens, pos) == Fail(BrokenOrder(tokens[pos]), pos + |EncodeTokens(BDictionary(d), at)|)
  {
    DictionaryReadThrough(tokens, pos, d, at);
    DictionaryBroken(tokens, DictionaryEnd(pos, d, at), tokens[pos], d);
  }

  /** Whatever the key order, parseDictionary reads the encoder's entries
      one by one and arrives at the closing END_TYPE holding all of them. */
  lemma DictionaryReadThrough(tokens: seq<Token>, pos: nat, d: seq<Entry>, at: int)
    requires ValidTokens(tokens) && DistinctKeys(d) && CanonicalEntries(d)
    requires At(tokens, pos, EncodeTokens(BDictionary(d), at))
    ensures pos < |tokens| && DictionaryEnd(pos, d, at) < |tokens| && tokens[DictionaryEnd(pos, d, at)].tokenType == EndType
    ensures pos + |EncodeTokens(BDictionary(d), at)| == DictionaryEnd(pos, d, at) + 1
    ensures ElementAt(tokens, pos) == DictionaryEntries(tokens, DictionaryEnd(pos, d, at), tokens[pos], d)
  {
    DictionaryParts(tokens, pos, d, at);
    DictionaryOpened(tokens, pos);
    assert [] + d == d;
    DistinctNewKeys([], d);
    ParseEntriesEncoded(tokens, pos + 1, tokens[pos], [], d, at + 1, DictionaryEnd(pos, d, at), d);
  }

  /** Where the opening token, the entries' tokens and END_TYPE of an
      encoded dictionary stand. */
  lemma DictionaryParts(tokens: seq<Token>, pos: nat, d: seq<Entry>, at: int)
    requires At(tokens, pos, EncodeTokens(BDictionary(d), at))
    ensures pos < |tokens| && tokens[pos].tokenType == Dictionary && At(tokens, pos + 1, EntriesTokens(d, at + 1))
    ensures DictionaryEnd(pos, d, at) < |tokens| && tokens[DictionaryEnd(pos, d, at)].tokenType == EndType
    ensures pos + |EncodeTokens(BDictionary(d), at)| == DictionaryEnd(pos, d, at) + 1
  {
    var open := [Tok(Dictionary, at, CharValue('d'))];
    var close := [Tok(EndType, at + 1 + EntriesWidth(d), CharValue('e'))];
    var et := EntriesTokens(d, at + 1);
    ThreeParts(tokens, pos, open, et, close);
    AtIndex(tokens, pos, open, 0);
    AtIndex(tokens, pos + 1 + |et|, close, 0);
  }

  /** parseElement on DICTIONARY enters parseDictionary's loop with an empty
      map, remembering the opening token. */
  lemma DictionaryOpened(tokens: seq<Token>, pos: nat)
    requires ValidTokens(tokens) && pos < |tokens| && tokens[pos].tokenType == Dictionary
    ensures ElementAt(tokens, pos) == DictionaryEntries(tokens, pos + 1, tokens[pos], [])
  {
  }

  /** parseDictionary at END_TYPE with its keys in order returns the map and
      steps past END_TYPE. */
  lemma DictionaryClosed(tokens: seq<Token>, end: nat, start: Token, d: seq<Entry>)
    requires ValidTokens(tokens) && end < |tokens| && tokens[end].tokenType == EndType && KeysInOrder(d)
    ensures DictionaryEntries(tokens, end, start, d) == Parsed(Ok(BDictionary(d)), end + 1)
  {
  }

  /** The other direction of isCorrectOrder: at END_TYPE, entries whose keys
      decrease somewhere raise the broken-order error of the opening token,
      with the cursor past END_TYPE. */
  lemma DictionaryBroken(tokens: seq<Token>, end: nat, start: Token, dict: seq<Entry>)
    requires ValidTokens(tokens) && end < |tokens| && tokens[end].tokenType == EndType
    requires !KeysInOrder(dict)
    ensures DictionaryEntries(tokens, end, start, dict) == Fail(BrokenOrder(start), end + 1)
  {
  }

  /** Each key of d is new to the entries put before it. */
  predicate NewKeys(dict: seq<Entry>, d: seq<Entry>)
    decreases d
  {
    d == [] || (d[0].key !in Keys(dict) && NewKeys(dict + [d[0]], d[1..]))
  }

  lemma {:induction false} DistinctNewKeys(dict: seq<Entry>, d: seq<Entry>)
    requires DistinctKeys(dict + d)
    ensures NewKeys(dict, d)
    decreases d
  {
    if d != [] {
      FreshKey(dict, d);
      ConsShift(dict, d);
      DistinctNewKeys(dict + [d[0]], d[1..]);
    }
  }

  lemma FreshKey(dict: seq<Entry>, d: seq<Entry>)
    requires DistinctKeys(dict + d) && d != []
    ensures d[0].key !in Keys(dict)
  {
    forall j | 0 <= j < |dict| ensures dict[j].key != d[0].key {
      assert (dict + d)[j] == dict[j] && (dict + d)[|dict|] == d[0];
    }
  }

  /** Where the tokens after the first entry of d start, and the column of
      their text. */
  function EntryEnd(pos: nat, d: seq<Entry>, at: int): nat
    requires d != []
  {
    pos + 3 + |EncodeTokens(d[0].value, at + StringWidth(d[0].key))|
  }

  function EntriesRestAt(d: seq<Entry>, at: int): int
    requires d != []
  {
    at + StringWidth(d[0].key) + Width(d[0].value)
  }

  /** parseDictionary's loop runs through the encoder's entries, putting
      each after the ones before: from `dict` before them to `all` after
      them, at `end`. */
  lemma {:induction false} ParseEntriesEncoded(tokens: seq<Token>, pos: nat, start: Token, dict: seq<Entry>, d: seq<Entry>, at: int,
                                               end: nat, all: seq<Entry>)
    requires ValidTokens(tokens) && CanonicalEntries(d) && NewKeys(dict, d)
    requires At(tokens, pos, EntriesTokens(d, at))
    requires end == pos + |EntriesTokens(d, at)| && end < |tokens| && all == dict + d
    ensures DictionaryEntries(tokens, pos, start, dict) == DictionaryEntries(tokens, end, start, all)
    decreases d, 2
  {
    if d == [] {
      assert all == dict;
    } else {
      EntriesStep(tokens, pos, start, dict, d, at, end, all);
      ParseEntriesEncoded(tokens, EntryEnd(pos, d, at), start, dict + [d[0]], d[1..], EntriesRestAt(d, at), end, all);
    }
  }

  /** One pass of parseDictionary's loop over the first encoded entry, and
      what it leaves for the passes after it. */
  lemma EntriesStep(tokens: seq<Token>, pos: nat, start: Token, dict: seq<Entry>, d: seq<Entry>, at: int, end: nat, all: seq<Entry>)
    requires ValidTokens(tokens) && d != [] && CanonicalEntries(d) && NewKeys(dict, d)
    requires At(tokens, pos, EntriesTokens(d, at))
    requires end == pos + |EntriesTokens(d, at)| && end < |tokens| && all == dict + d
    ensures CanonicalEntries(d[1..]) && NewKeys(dict + [d[0]], d[1..])
    ensures At(tokens, EntryEnd(pos, d, at), EntriesTokens(d[1..], EntriesRestAt(d, at)))
    ensures end == EntryEnd(pos, d, at) + |EntriesTokens(d[1..], EntriesRestAt(d, at))| && all == dict + [d[0]] + d[1..]
    ensures DictionaryEntries(tokens, pos, start, dict) == DictionaryEntries(tokens, EntryEnd(pos, d, at), start, dict + [d[0]])
    decreases d, 1
  {
    EntriesSplit(tokens, pos, d, at);
    ConsShift(dict, d);
    EntryParsed(tokens, pos, start, dict, d, at);
  }

  /** Where the first entry's key and value tokens and the remaining
      entries' tokens stand. */
  lemma EntriesSplit(tokens: seq<Token>, pos: nat, d: seq<Entry>, at: int)
    requires d != [] && At(tokens, pos, EntriesTokens(d, at))
    ensures At(tokens, pos, StringTokens(d[0].key, at)) && At(tokens, pos + 3, EncodeTokens(d[0].value, at + StringWidth(d[0].key)))
    ensures At(tokens, EntryEnd(pos, d, at), EntriesTokens(d[1..], EntriesRestAt(d, at)))
    ensures pos + |EntriesTokens(d, at)| == EntryEnd(pos, d, at) + |EntriesTokens(d[1..], EntriesRestAt(d, at))|
  {
    EntriesTokensCons(d, at);
    ThreeParts(tokens, pos, StringTokens(d[0].key, at), EncodeTokens(d[0].value, at + StringWidth(d[0].key)),
               EntriesTokens(d[1..], EntriesRestAt(d, at)));
  }

  lemma EntriesTokensCons(d: seq<Entry>, at: int)
    requires d != []
    ensures EntriesTokens(d, at) ==
            StringTokens(d[0].key, at) + EncodeTokens(d[0].value, at + StringWidth(d[0].key)) +
            EntriesTokens(d[1..], EntriesRestAt(d, at))
  {
  }

  /** One pass of parseDictionary's loop over the first entry of d, its key
      and its value encoded: the key is new, so the map grows by that entry
      at the end. */
  lemma EntryParsed(tokens: seq<Token>, pos: nat, start: Token, dict: seq<Entry>, d: seq<Entry>, at: int)
    requires ValidTokens(tokens) && d != [] && CanonicalEntries(d) && NewKeys(dict, d)
    requires At(tokens, pos, StringTokens(d[0].key, at)) && At(tokens, pos + 3, EncodeTokens(d[0].value, at + StringWidth(d[0].key)))
    ensures EntryEnd(pos, d, at) < |tokens|
    ensures DictionaryEntries(tokens, pos, start, dict) == DictionaryEntries(tokens, EntryEnd(pos, d, at), start, dict + [d[0]])
    decreases d, 0
  {
    StringAtEncoded(tokens, pos, d[0].key, at);
    ParseEncoded(tokens, pos + 3, d[0].value, at + StringWidth(d[0].key));
    DictionaryEntriesStep(tokens, pos, start, dict, d[0].key, pos + 3, d[0].value, EntryEnd(pos, d, at));
    PutNew(dict, d[0].key, d[0].value);
  }

  /** One pass of parseDictionary's loop over a key and its value. */
  lemma DictionaryEntriesStep(tokens: seq<Token>, pos: nat, start: Token, dict: seq<Entry>, key: string, p: nat, v: Element, q: nat)
    requires ValidTokens(tokens) && pos < |tokens| && tokens[pos].tokenType != EndType
    requires StringAt(tokens, pos) == Parsed(Ok(BString(key)), p) && p < |tokens|
    requires ElementAt(tokens, p) == Parsed(Ok(v), q)
    ensures DictionaryEntries(tokens, pos, start, dict) == DictionaryEntries(tokens, q, start, Put(dict, key, v))
  {
  }

  lemma ConsShift<T>(xs: seq<T>, ys: seq<T>)
    requires ys != []
    ensures xs + [ys[0]] + ys[1..] == xs + ys
  {
  }

  // ------------------------------------------------------ whole documents

  /** Parsing the encoder's tokens for a canonical element, closed by EOF,
      yields the element itself and reports nothing. */
  lemma ParseEncodedDocument(tokens: seq<Token>, e: Element, at: int)
    requires Canonical(e) && ValidTokens(tokens)
    requires |tokens| == |EncodeTokens(e, at)| + 1 && At(tokens, 0, EncodeTokens(e, at))
    ensures ParseTokens(tokens, []) == ParseResult(Some(e), [])
  {
    ParseEncoded(tokens, 0, e, at);
    TopLevelStep(tokens, 0, None, e, |EncodeTokens(e, at)|);
    TopLevelAtEof(tokens, |EncodeTokens(e, at)|, Some(e));
  }

  /** Of several top-level elements, encoded one after the other, the last
      one is returned. */
  lemma LastElementWins(tokens: seq<Token>, items: seq<Element>, at: int)
    requires ValidTokens(tokens) && items != [] && CanonicalItems(items)
    requires |tokens| == |ItemsTokens(items, at)| + 1 && At(tokens, 0, ItemsTokens(items, at))
    ensures ParseTokens(tokens, []) == ParseResult(Some(items[|items| - 1]), [])
  {
    TopLevelItems(tokens, 0, items, at, None);
  }

  lemma {:induction false} TopLevelItems(tokens: seq<Token>, pos: nat, items: seq<Element>, at: int, element: Option<Element>)
    requires ValidTokens(tokens) && CanonicalItems(items)
    requires pos + |ItemsTokens(items, at)| == |tokens| - 1 && At(tokens, pos, ItemsTokens(items, at))
    ensures TopLevel(tokens, pos, element, []) == ParseResult(if items == [] then element else Some(items[|items| - 1]), [])
    decreases items
  {
    if items == [] {
      TopLevelAtEof(tokens, pos, element);
    } else {
      ItemsSplit(tokens, pos, items, at);
      TopLevelItem(tokens, pos, items, at, element);
      TopLevelItems(tokens, ItemEnd(pos, items, at), items[1..], ItemsRestAt(items, at), Some(items[0]));
      if |items| > 1 {
        assert items[1..][|items| - 2] == items[|items| - 1];
      }
    }
  }

  /** One pass of parse's loop over the first of the items, encoded. */
  lemma TopLevelItem(tokens: seq<Token>, pos: nat, items: seq<Element>, at: int, element: Option<Element>)
    requires ValidTokens(tokens) && items != [] && CanonicalItems(items) && At(tokens, pos, EncodeTokens(items[0], at))
    ensures ItemEnd(pos, items, at) < |tokens|
    ensures TopLevel(tokens, pos, element, []) == TopLevel(tokens, ItemEnd(pos, items, at), Some(items[0]), [])
  {
    ParseEncoded(tokens, pos, items[0], at);
    TopLevelStep(tokens, pos, element, items[0], ItemEnd(pos, items, at));
  }

  /** One pass of parse's loop over an element that parses. */
  lemma TopLevelStep(tokens: seq<Token>, pos: nat, element: Option<Element>, e: Element, p: nat)
    requires ValidTokens(tokens) && pos < |tokens| && ElementAt(tokens, pos) == Parsed(Ok(e), p)
    ensures TopLevel(tokens, pos, element, []) == TopLevel(tokens, p, Some(e), [])
  {
  }

  /** At EOF parse returns the last element, as nothing was reported. */
  lemma TopLevelAtEof(tokens: seq<Token>, pos: nat, element: Option<Element>)
    requires ValidTokens(tokens) && pos == |tokens| - 1
    ensures TopLevel(tokens, pos, element, []) == ParseResult(element, [])
  {
  }
}
